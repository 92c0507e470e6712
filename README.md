# Ultrasound pupillometer firmware core, modelled in Dafny

The firmware runs on an Arduino Due. It turns echo-amplitude samples into columns of
grey shades and assembles those columns into a B-mode image on a small TFT display.
The samples come either from a host over the native USB serial port or, in test mode,
from a simulated pulse-echo generator. This project models the core of that firmware
and proves what its code promises:

- **The A-scan demodulation pipeline of `SignalProcessor`** (modules `EnvelopeSpec`,
  `SignalProcessing`).
  - `linspace` builds the time axis.
  - `findPeaks` picks the points where the discrete derivative turns from non-negative
    to negative, and always appends `len-1`.
  - `downsample` blends two neighbours at integer-indexed positions.
  - `interpLin` interpolates linearly and is flat beyond the ends.
  - A clamp to `[0, 255-gain]` is applied to the signal.
  - The grey conversion divides by `env_max_`, a running maximum kept across calls.
  - `receiveBScan` calls `receiveAScan` once per column.
  - Each loop is a method proved equal to a reference function. The structural facts
    are proved about those functions: the shape of the peak list, which blends stay
    between their neighbours, that ramps are preserved, the identity at equal size,
    the interpolation bounds, clamp idempotence and a monotone `env_max_`.
- **The older `Demodulator` that the main loop still calls** (module `Demodulator`).
  - It builds 250-point waveforms and normalises each column by that column's own
    maximum.
  - It keeps only the envelope values and rounds `envelope*255` into a byte.
  - Its `findPeaks` and `downsample` are the same code as `SignalProcessor`'s, and
    its two-argument `linspace<N>(min, max)` is the same algorithm as the
    three-argument `linspace(min, max, n)`; the models of those are shared.
- **The binary command protocol of `SerialStream`** (module `SerialServer`).
  - `listen<N>()` is a one-step state machine over opcode bytes: HANDSHAKE, SETUP,
    STREAM, RESET and unknown opcodes.
  - Payloads arrive as little-endian 16-bit words through a two-byte union.
  - `checkConnections` reports port presence and resets the image.
  - The link is modelled as the bytes received, the bytes sent and the builtin LED.
  - The 1000 ms payload wait is modelled as an oracle.
- **The configuration store** (module `Config` for `config.hpp`; module `ScreenConfig`
  for the older `cfg` namespace in `display/screen.hpp`).
  - Each store holds its slots, a copy-in update, the update flag, and getters in the
    width of their return types.
- **The screen layout** (module `Screen`).
  - The image size follows from the layout constants.
  - `createUniform` builds a column of one shade, and `BLACK` and `WHITE` are two such
    columns.
- **The RGB565 grey and colour codec** (module `ColorUtil` for `util/color_util.h`;
  module `Colours` for `test/colours.py`), bit-exact on `bv16`/`bv8`.
- **The Python reference `util/demodulator.py`** (module `DemodulatorPy`).
  - `gen_echo`, `find_peaks_natural` and `downsample_natural` are modelled and proved
    to agree with the firmware, apart from the differences the code itself makes.
- **The main loop's column cursor in `main.cpp`** (module `MainLoop`).
- **The display state those parts act on** (module `DisplayState`).
  - This is the display's column counter, the blanks of the image area and the
    columns handed to `renderColumn`.
  - The actual drawing is not modelled.

Modelling choices:

- Shared modules:
  - `Numeric` holds the fixed-width integer types and the C conversions: wrap-around
    to `uint8_t`/`uint16_t`, wrapping 32-bit subtraction, C `round` and truncation.
  - `Wrappers` holds `Result`, `Option` and the fault kinds.
  - `Waveform` holds the structure of the simulated echo.
- Samples and floats are `real`.
  - C `round` is modelled concretely: halves go away from zero.
  - Python `round` is also modelled concretely: halves go to even.
- The sine, exponential and random amplitude terms of the echo generator are
  parameters:
  - a `Shape` record of functions;
  - amplitude draws of type `nat -> real`.
- Undefined behaviour of the code is an explicit `Failure`:
  - `ReadOutOfRange` for reads past the end of an array;
  - `DivideByZero` for a zero divisor in float division;
  - `NarrowingOutOfRange` for a value outside `0..255` converted to `uint8_t`.
- Several parts change state in place, and these are classes:
  - `SerialStream`, `UsbPort`, the configuration stores, `SignalProcessor` (for its
    static `env_max_`), the main loop's `Scanner` and the display.
  - Each method is proved against the function that specifies it.

Points of the protocol and the pipeline that the model makes explicit:

- A completed SETUP copies the ten words into `config_` at once. The flag that
  `cfg::update` raises only signals the change; the new values are already in use.
- A SETUP or STREAM whose payload does not arrive has these effects:
  - it returns the zero-filled array that `listen` started from;
  - it sends no second answer, neither ACK nor NACK;
  - it leaves the LED on.
- Once a payload has started, both final answers are always ACK. The loop counters
  always reach their bounds, because a short `readBytes` leaves stale bytes in the
  union rather than ending the loop.
- `env_max_` is updated from rows `1..n_rows-1` only. Row 0 is left out, and that is
  one of the findings below.

## Model

| member | source | states |
|---|---|---|
| Numeric.ToU8 | src/config.hpp:37-38 | an `int` stored in a `uint8_t` keeps its value below 256 and is otherwise congruent to it mod 256 |
| Numeric.ToU16 | src/config.hpp:44 | an `int` stored in a `uint16_t` keeps its value in range, and a negative difference above -65536 gains 65536 |
| Numeric.SubU32 | src/serial_server.hpp:47 | `millis() - tic` in 32 bits: the plain difference when no wrap occurs, otherwise the difference plus 2^32 |
| Numeric.CRound | src/signal_processor.hpp:238 | C `round` is within 1/2 of its argument and rounds halves away from zero, on both signs |
| Numeric.Abs | src/signal_processor.hpp:53 | `abs` returns a non-negative value equal to the argument or its negation |
| Numeric.Trunc | util/demodulator.py:50 | `int()` of a float truncates toward zero: the floor for non-negative values, the ceiling for negative ones |
| ColorUtil.Widen5 | src/util/color_util.h:15 | widening a 5-bit field by or-ing its top bits below keeps the field in the top 5 bits |
| ColorUtil.Widen6 | src/util/color_util.h:16 | widening a 6-bit field keeps the field in the top 6 bits |
| ColorUtil.ChannelsWidenFields | src/util/color_util.h:14-17 | r, g and b are the word's 5-6-5 fields (bits 11-15, 5-10 and 0-4), each widened to 8 bits |
| ColorUtil.GrayRGB565To16 | src/util/color_util.h:6-8 | the packed word holds `shade>>3` in bits 11-15 and 0-4 and `shade>>2` in bits 5-10, and fits 16 bits |
| ColorUtil.Gray16ToRGB565 | src/util/color_util.h:14-20 | the decoded shade is the floor of the average of the three widened channels, and fits a byte |
| ColorUtil.Gray16ToRGB565Nearest | src/util/color_util.h:14-20 | corrected decoder: the channel average rounded to the nearest shade, within 1/3 of the true mean |
| ColorUtil.GrayFloatTo16 | src/util/color_util.h:10-12 | a brightness scaled by 255 and rounded is packed into the same fields; 0.0 gives black 0 and 1.0 gives white 0xFFFF |
| ColorUtil.RoundTripWithin6 | src/util/color_util.h:6-20 | encoding a shade and decoding it returns a shade within 6 of the original, for every byte |
| ColorUtil.FloatShadeRoundTrip | src/util/color_util.h:6-20 | every brightness in [0, 1] packs without a narrowing fault, and decoding the word gives back the rounded shade to within 6 levels |
| ColorUtil.GreyChannels | src/util/color_util.h:6-20 | decoding an encoded shade yields red and blue equal to its top 5 bits widened and green equal to its top 6 bits widened |
| ColorUtil.Widen5Near | src/util/color_util.h:15 | widening the top 5 bits of a byte lands within 7 of the byte |
| ColorUtil.Widen6Near | src/util/color_util.h:16 | widening the top 6 bits of a byte lands within 3 of the byte |
| ColorUtil.RoundTripFixedPoints | src/util/color_util.h:6-20 | black 0, white 255 and the sample shade 131 (word 33808) survive encode then decode exactly |
| ColorUtil.FloorVersusNearest | src/util/color_util.h:19 | the floored and the rounded decoders differ, by exactly 1, precisely when the channel sum is 2 mod 3 |
| ColorUtil.FloorDecoderExamples | src/util/color_util.h:19 | shade 32 encodes to 0x2104 and decodes to 32 with the floor but 33 rounded; word 1 decodes to 2 instead of 3 |
| Colours.PyRound | test/colours.py:25 | Python `round` is within 1/2 of its argument and sends ties to the even neighbour |
| Colours.ColourRgb565To16bit | test/colours.py:1-2 | the packed colour holds the top 5 bits of r, the top 6 of g and the top 5 of b in that order, in 16 bits |
| Colours.PyRed | test/colours.py:5 | the Python red channel, on unbounded integers, equals the device's `uint8_t r` |
| Colours.PyGreen | test/colours.py:6 | the Python green channel equals the device's `uint8_t g` |
| Colours.PyBlue | test/colours.py:7 | the Python blue channel equals the device's `uint8_t b`, although Python's `<< 3` drops no bits |
| Colours.Colour16bitToRgb565 | test/colours.py:4-9 | each channel of the unpacked tuple is its 5-6-5 field widened to 8 bits |
| Colours.GrayRgb565To16bit | test/colours.py:17-18 | the grey encoder is the colour encoder with one shade in all three channels, and equals the device encoder |
| Colours.Gray16bitToRgb565 | test/colours.py:20-25 | the Python grey decoder rounds the channel average to nearest: three times the result is within 1 of the channel sum, and it equals the rounded-to-nearest device decoder on every 16-bit word |
| Colours.ChannelRoundTrip | test/colours.py:1-9 | packing then unpacking keeps `r&0xF8`, `g&0xFC` and `b&0xF8` and refills the low bits from the top bits |
| Colours.SampleValues | test/colours.py:12-28 | the printed sample values: (255, 97, 97) packs to 64268, 25567 unpacks to (99, 121, 255), 131 to 33808 and back |
| Waveform.Sample | src/signal_processor.hpp:48-53 | every echo sample, `abs(cyc*cyc_decay*exp_decay)`, is non-negative and is 0 wherever the carrier is 0 |
| Waveform.DeviceFloorIsZero | src/signal_processor.hpp:39 | the firmware's `uint8_t k = 0.2` holds 0 |
| Waveform.Echo | src/signal_processor.hpp:36-57 | a generated echo has res samples, all non-negative, and is 0 before tstart |
| Waveform.EchoAt | src/signal_processor.hpp:42-53 | one sample of an echo is non-negative and is 0 before tstart |
| Waveform.Mix | src/signal_processor.hpp:59-71 | the sum of the weighted echoes has res entries |
| Waveform.AddEcho | src/signal_processor.hpp:66-67 | adding echo t divided by t+3 keeps the buffer length |
| Waveform.MixStep | src/signal_processor.hpp:64-68 | mixing one more echo t adds it, divided by t+3, to the mix of the echoes before it |
| Waveform.MixNonNegative | src/signal_processor.hpp:59-71 | a weighted sum of non-negative echoes is non-negative |
| Waveform.EchoTimes | src/signal_processor.hpp:11-12 | the echo times 0, 1.3, 3.2, 3.8, 5, 6, 7 reach the `uint16_t t` parameter as 0, 1, 3, 3, 5, 6, 7 |
| Waveform.NonNegative | src/signal_processor.hpp:53 | the property that every sample is at least 0, which `abs` gives each echo sample |
| Waveform.Uniform | src/signal_processor.hpp:59-71 | the property that every echo of a set has the same res samples, so the echoes can be added entry by entry |
| EnvelopeSpec.LinspaceSpec | src/signal_processor.hpp:17-29 | for n >= 2 there are n points, point i < n-1 is `min + i*step` and the last is exactly max; for n <= 1 only max |
| EnvelopeSpec.LinspaceIncreasing | src/signal_processor.hpp:17-29 | over the reals the points are strictly increasing when min < max |
| EnvelopeSpec.ScanPeaks | src/signal_processor.hpp:86-99 | the indices the derivative loop has recorded after visiting x = 0..k-1: at most one per visit, so at most k |
| EnvelopeSpec.PeakIndices | src/signal_processor.hpp:81-103 | findPeaks' result is never empty; for a non-empty signal it ends at len-1, and for an empty signal it is [65535], the `uint16_t` wrap of len-1 |
| EnvelopeSpec.ScanPeaksFacts | src/signal_processor.hpp:86-99 | before visiting x = k the loop has recorded, in increasing order, exactly the indices p with p+2 <= k that are peaks |
| EnvelopeSpec.PeakIndicesInRange | src/signal_processor.hpp:81-103 | for a non-empty signal the peak list is non-empty, no longer than the signal, and indexes only inside it |
| EnvelopeSpec.PeakIndicesShape | src/signal_processor.hpp:81-103 | the peak list is strictly increasing, ends at len-1, and holds an index p < len-1 if and only if `s[p+1] < s[p]` and (p = 0 or `s[p] >= s[p-1]`) |
| EnvelopeSpec.DsEntryAt | src/signal_processor.hpp:111-114 | pass i reads only `a[idx]` and `a[idx+1]` inside the array, with idx and p the quotient and remainder of `i*(oldsize-1)` by `npts-1` |
| EnvelopeSpec.Blend | src/signal_processor.hpp:114 | the two-point blend `(p*hi + (d-p)*lo)/d` of one pass, whose bounds BlendBetween proves |
| EnvelopeSpec.DsEntry | src/signal_processor.hpp:111-114 | entry i < npts-1: the blend of `a[idx]` and `a[idx+1]` weighted by p, idx and p the quotient and remainder of `i*(oldsize-1)` by `npts-1`; DsEntryAt proves both reads in range |
| EnvelopeSpec.DownsampleAssembled | src/signal_processor.hpp:107-118 | the pass entries followed by the last sample are the result of downsample |
| EnvelopeSpec.BlendBetween | src/signal_processor.hpp:114 | the two-point blend lies between its two points, in either order |
| EnvelopeSpec.QuotientBelow | src/signal_processor.hpp:112 | the left neighbour index `i*(oldsize-1)/(npts-1)` is below oldsize-1, so `idx+1` is in range |
| EnvelopeSpec.DownsampleSpec | src/signal_processor.hpp:107-118 | downsample succeeds exactly when oldsize >= 2 or (oldsize = 1 and npts <= 1); then it has npts entries (1 if npts <= 1), starting with `a[0]` and ending with `a[oldsize-1]` |
| EnvelopeSpec.DownsampleProductsFit | src/signal_processor.hpp:112-113 | for arrays up to the capacity of 1000 and any `uint16_t` npts, the largest product `(npts-2)*(oldsize-1)` fits a signed 32-bit `int` |
| EnvelopeSpec.DsEntryBetween | src/signal_processor.hpp:111-114 | every entry lies between the two neighbours `a[idx]` and `a[idx+1]` that it blends |
| EnvelopeSpec.DsEntryWithin | src/signal_processor.hpp:111-114 | every entry respects any bounds that all input samples respect |
| EnvelopeSpec.DownsampleWithin | src/signal_processor.hpp:107-118 | the whole downsampled array respects any bounds the input respects |
| EnvelopeSpec.DownsampleRamp | src/signal_processor.hpp:111-114 | a linear ramp `c + k*j` maps to the same ramp sampled at `i*(oldsize-1)/(npts-1)` |
| EnvelopeSpec.DownsampleIdentity | src/signal_processor.hpp:107-118 | downsampling an array to its own size returns it unchanged |
| EnvelopeSpec.DsEntryAtOwnSize | src/signal_processor.hpp:111-114 | with npts = oldsize, entry i is exactly `a[i]` |
| EnvelopeSpec.SearchFrom | src/signal_processor.hpp:152 | the search loop terminates at an i with `x[i] <= x_pt < x[i+1]`, never before its start |
| EnvelopeSpec.LerpBetween | src/signal_processor.hpp:153-154 | `y0*(1-t) + y1*t` with t in [0, 1] lies between y0 and y1 |
| EnvelopeSpec.Lerp | src/signal_processor.hpp:153-154 | the interpolated value `y0*(1-t) + y1*t` of one target point, whose bounds LerpBetween proves |
| EnvelopeSpec.InterpAt | src/signal_processor.hpp:127-157 | a point at or below `x[0]` gives `y[0]`, one at or above `x[n-1]` gives `y[n-1]`, any other lies between `y[i]` and `y[i+1]` with `x[i] <= x_pt < x[i+1]` |
| EnvelopeSpec.Interp | src/signal_processor.hpp:121-160 | interpLin returns one value per point of x_new |
| EnvelopeSpec.InterpWithin | src/signal_processor.hpp:121-160 | every interpolated value respects any bounds the first n entries of y respect |
| EnvelopeSpec.Ceiling | src/signal_processor.hpp:200 | the clamp ceiling `0xFF - gain` lies in [0, 255] |
| EnvelopeSpec.ClampSample | src/signal_processor.hpp:195-201 | a clamped sample lies in [0, ceiling], and a sample already in range is unchanged |
| EnvelopeSpec.ClampAll | src/signal_processor.hpp:195-201 | after the clamp loop every sample lies in [0, 255-gain], and the length is kept |
| EnvelopeSpec.ClampIdempotent | src/signal_processor.hpp:195-201 | clamping a clamped signal changes nothing |
| EnvelopeSpec.RunningMax | src/signal_processor.hpp:231-233 | the folded maximum is at least its start and every visited row, and equals the start or one of those rows |
| EnvelopeSpec.GreyColumn | src/signal_processor.hpp:236-238 | the column fails with a divide by zero exactly when n_rows >= 1 and `env_max_` is 0; otherwise rows below n_rows hold `round(v*255/env_max_)` and the rest stay black |
| EnvelopeSpec.GreyColumnRowZero | src/signal_processor.hpp:231-238 | when every row from 1 on fits a byte, the column has a value exactly when row 0's shade is at most 255 |
| EnvelopeSpec.ShadeInRange | src/signal_processor.hpp:238 | a non-negative value at most the positive maximum gets a shade in 0..255 |
| EnvelopeSpec.Shade | src/signal_processor.hpp:238 | the grey level of one row is within 1/2 of `v*255/env_max_` |
| EnvelopeSpec.RowsFromOneFit | src/signal_processor.hpp:231-238 | with a non-negative envelope and a positive maximum, every row i >= 1 gets a shade in 0..255 |
| EnvelopeSpec.RowZeroOverflows | src/signal_processor.hpp:231-238 | as written: envelope [2, 1] and a fresh `env_max_` of 0 give maximum 1 and a row-0 shade of 510, so the byte conversion overflows |
| EnvelopeSpec.CorrectedColumnFits | src/signal_processor.hpp:231-238 | corrected: with the maximum taken from row 0 on, a non-negative envelope with a positive maximum always yields a column |
| SignalProcessing.Linspace | src/signal_processor.hpp:17-29 | the push_back loop produces exactly the linspace points |
| SignalProcessing.FindPeaks | src/signal_processor.hpp:81-103 | the derivative loop returns the peak list: non-empty, increasing, in range and ending at len-1 for a non-empty signal |
| SignalProcessing.Downsample | src/signal_processor.hpp:107-118 | when the last pass's product `(npts-2)*(oldsize-1)` fits a signed 32-bit `int`, the blending loop returns the downsampled array, or the fault of its first read past the end |
| SignalProcessing.BlendPass | src/signal_processor.hpp:111-114 | one pass computes entry i of downsample and reads inside the array |
| SignalProcessing.InterpLin | src/signal_processor.hpp:121-160 | the interpolation loop with its search loop returns exactly the interpolated values |
| SignalProcessing.Clamp | src/signal_processor.hpp:195-201 | the in-place clamp leaves the array equal to the clamped signal |
| SignalProcessing.Tspan | src/signal_processor.hpp:61 | the generator's time axis has 200 points from 0 to exactly 8 |
| SignalProcessing.EchoTime | src/signal_processor.hpp:64-65 | echo t reaches generateEcho as its truncated time, at most 7 |
| SignalProcessing.EchoStart | src/signal_processor.hpp:38 | `tstart = t*RES/TLIM` is 25 samples per whole microsecond |
| SignalProcessing.GeneratedEchoes | src/signal_processor.hpp:59-68 | generateEchoes uses seven echoes of 200 non-negative samples each |
| SignalProcessing.GeneratedEcho | src/signal_processor.hpp:65 | each generated echo has 200 non-negative samples |
| SignalProcessing.GeneratedSignal | src/signal_processor.hpp:59-71 | the generated waveform has 200 non-negative samples |
| SignalProcessing.GenerateEcho | src/signal_processor.hpp:36-57 | the push_back loop yields the echo: 0 before tstart, the waveform sample with floor 0 after |
| SignalProcessing.GenerateEchoes | src/signal_processor.hpp:59-71 | the two nested loops yield the weighted sum of the seven echoes |
| SignalProcessing.AddWeighted | src/signal_processor.hpp:66-67 | the inner loop adds `echo[i]/(t+3)` to every buffer entry in place |
| SignalProcessing.Envelope | src/signal_processor.hpp:204-223 | the envelope built from the peaks has n_rows points (1 if n_rows <= 1) |
| SignalProcessing.EnvelopeWithin | src/signal_processor.hpp:204-223 | the envelope respects any bounds the signal respects |
| SignalProcessing.Convert | src/signal_processor.hpp:230-238 | the new `env_max_` is the running maximum of rows 1..n_rows-1 and never below the old one; the column is converted against it |
| SignalProcessing.ConvertOnlyRowZeroOverflows | src/signal_processor.hpp:231-238 | with a non-negative envelope and a positive maximum, rows 1.. fit a byte, and the column fails exactly when row 0 exceeds 255 |
| SignalProcessing.AScan | src/signal_processor.hpp:163-243 | one A-scan never lowers `env_max_`, and a column it produces has IMG_HEIGHT rows |
| SignalProcessing.AScanEnvelopeWithin | src/signal_processor.hpp:195-223 | the envelope of a clamped signal lies in [0, 255-gain] |
| SignalProcessing.BScan | src/signal_processor.hpp:246-264 | a B-scan has one column per signal and never lowers `env_max_` |
| SignalProcessing.BScanStep | src/signal_processor.hpp:255-260 | one more signal appends one column, taken with the `env_max_` left by the columns before it |
| SignalProcessing.BScanColumn | src/signal_processor.hpp:255-260 | column c is the A-scan of signal c, taken with the maximum left by columns 0..c-1, which is at least the starting value |
| SignalProcessing.Signals | src/signal_processor.hpp:255-256 | each column's generated signal has 200 samples |
| SignalProcessing.SignalProcessor.constructor | src/signal_processor.hpp:78 | `env_max_` starts at 0 |
| SignalProcessing.SignalProcessor.ReceiveAScan | src/signal_processor.hpp:163-243 | on the generator path, the column and the new `env_max_` are the A-scan of the generated signal against the old `env_max_` |
| SignalProcessing.SignalProcessor.PeakEnvelope | src/signal_processor.hpp:204-223 | the peak, time-axis, downsample and interpolation loops produce exactly the envelope of the clamped signal, or its fault |
| SignalProcessing.SignalProcessor.GreyLevels | src/signal_processor.hpp:236-238 | the conversion loop produces the grey column against the given maximum, with the divide-by-zero and narrowing faults where they occur |
| SignalProcessing.SignalProcessor.ConvertEnvelope | src/signal_processor.hpp:230-238 | the max loop and the conversion loop yield the converted column and the new `env_max_` |
| SignalProcessing.SignalProcessor.ReceiveBScan | src/signal_processor.hpp:246-264 | the column loop yields exactly the B-scan of the columns' signals, and leaves `env_max_` where the B-scan leaves it |
| Demodulator.Tspan | src/demodulator.hpp:23-33 | `linspace<res>(0, tlim)` has 250 points from 0 to exactly 8 |
| Demodulator.EchoStart | src/demodulator.hpp:70 | `t*res/tlim` in integers is the truncated quotient whenever it fits `uint16_t` |
| Demodulator.EchoStartsOfMainLoop | src/demodulator.hpp:70 | the main loop's echo times start their echoes at samples 0, 31, 93, 93, 156, 187, 218 |
| Demodulator.GenerateEcho | src/demodulator.hpp:67-89 | the loop yields 250 samples: 0 before tstart, the waveform sample with `uint8_t k` = 0 after |
| Demodulator.Echoes | src/demodulator.hpp:114-115 | there is one echo per echo time, each of 250 non-negative samples |
| Demodulator.ColumnEcho | src/demodulator.hpp:115 | each echo has 250 non-negative samples |
| Demodulator.Sspan | src/demodulator.hpp:111-119 | the compiled waveform has 250 non-negative samples |
| Demodulator.Normalise | src/demodulator.hpp:128-129 | normalisation keeps the length |
| Demodulator.PeakLevel | src/demodulator.hpp:122-125 | the maximum loop finds a value that bounds every sample and is attained |
| Demodulator.PeakTime | src/demodulator.hpp:138 | `peaks_idx*tlim/res` in integers truncates to whole microseconds |
| Demodulator.PeakTimesTruncate | src/demodulator.hpp:138 | the last sample's time, 7.968, truncates to 7, and sample 31's time, 0.992, truncates to 0 |
| Demodulator.EnvelopeColumn | src/demodulator.hpp:132-153 | a column built from a normalised waveform has IMG_HEIGHT rows |
| Demodulator.Levels | src/demodulator.hpp:152-153 | the conversion succeeds exactly when every `round(v*255)` fits a byte, and row i is that value |
| Demodulator.AScanColumn | src/demodulator.hpp:121-155 | an A-scan column has IMG_HEIGHT rows |
| Demodulator.NormalisedPeakIsOne | src/demodulator.hpp:121-129 | after normalising a non-negative waveform with a positive maximum, every sample lies in [0, 1] and some sample is exactly 1 |
| Demodulator.SilentIffZeroPeak | src/demodulator.hpp:122-129 | the maximum of a non-negative waveform is 0 exactly when every sample is 0 |
| Demodulator.AScanColumnNeverNarrows | src/demodulator.hpp:121-155 | for a non-negative waveform no shade leaves 0..255, and the column exists exactly when the maximum is positive and the envelope has at least two points |
| Demodulator.EnvelopeColumnNeverNarrows | src/demodulator.hpp:132-153 | for values in [0, 1] the column fails only when the envelope has a single point |
| Demodulator.NormalisedPeaksMatch | src/demodulator.hpp:128-133 | dividing by a positive maximum leaves the peak indices unchanged |
| Demodulator.CompileWaveform | src/demodulator.hpp:111-119 | the compile loop fills a fresh `sspan` with the weighted sum of the echoes |
| Demodulator.FindMax | src/demodulator.hpp:122-125 | the loop from `sspan[0]` returns the waveform's maximum |
| Demodulator.NormaliseInPlace | src/demodulator.hpp:128-129 | `sspan[i] /= max` leaves the array equal to the normalised waveform |
| Demodulator.Demodulate | src/demodulator.hpp:132-153 | the envelope, downsample and conversion loops produce the column of the normalised waveform |
| Demodulator.ToLevels | src/demodulator.hpp:152-153 | the push loop produces the rounded shades, or the narrowing fault |
| Demodulator.GenerateAScan | src/demodulator.hpp:106-156 | the whole method yields the A-scan column of the compiled waveform, whatever the column index |
| Demodulator.BScanImage | src/demodulator.hpp:171-177 | the image has n columns in order, and column c is the A-scan column of waveform c |
| Demodulator.Signals | src/demodulator.hpp:171-172 | each column's waveform has 250 samples |
| Demodulator.GenerateBScan | src/demodulator.hpp:159-186 | the loop appends IMG_WIDTH columns in order, column c the A-scan of its own draws |
| DemodulatorPy.FloorKept | util/demodulator.py:11 | the Python floor 0.2 stays above the firmware's truncated floor 0 |
| DemodulatorPy.SliceStop | util/demodulator.py:18 | `echo[:tstart] = 0` clears tstart samples, everything past the end, or all but the last `-tstart` when tstart is negative |
| DemodulatorPy.GenEcho | util/demodulator.py:7-20 | gen_echo fails only when tlim is 0; otherwise it gives one non-negative sample per time point, 0 in the cleared prefix and the waveform with A = 0.4 and k = 0.2 after it |
| DemodulatorPy.EchoStart | util/demodulator.py:9 | `tstart = int(h*res/tlim)`: for h >= 0 and tlim > 0, the largest whole number at most `h*res/tlim` |
| DemodulatorPy.StartIsIntegerQuotient | util/demodulator.py:9 | for whole echo times, `int(h*res/tlim)` is the integer quotient |
| DemodulatorPy.SameClearedPrefix | util/demodulator.py:9-18 | for echo times the firmware can hold, gen_echo clears exactly the samples generateEcho clears |
| DemodulatorPy.NegativeStartClearsFromEnd | util/demodulator.py:9-18 | echo time -0.032 gives tstart -1, which clears 249 of 250 samples |
| DemodulatorPy.NaturalPeaksShape | util/demodulator.py:22-39 | for a non-empty signal the list is increasing, in range and ends at len-1, holding exactly the peaks before it |
| DemodulatorPy.NaturalPeaks | util/demodulator.py:22-39 | the recorded indices followed by `len(signal)-1`: never empty, and the last entry is `len(signal)-1` (-1 for an empty signal) |
| DemodulatorPy.NaturalPeaksMatchFirmware | util/demodulator.py:22-39 | for signals shorter than 65536 the Python peaks equal the firmware's findPeaks |
| DemodulatorPy.FindPeaksNatural | util/demodulator.py:22-39 | the enumerate loop returns the natural peaks, and `[-1]` for an empty signal |
| DemodulatorPy.DownsampleNatural | util/demodulator.py:46-56 | for npts >= 1 the result is the firmware's downsample, faults included; npts 0 writes past the end |
| DemodulatorPy.NaturalBlend | util/demodulator.py:49-53 | with `int()` of the true quotient, pass i computes the same blend as the firmware |
| DemodulatorPy.GrayRgb565To16bit | util/demodulator.py:58-59 | the Python grey encoder equals the device encoder |
| DemodulatorPy.Gray16bitToRgb565 | util/demodulator.py:61-66 | the Python grey decoder is the rounded-to-nearest decoder: within 1/3 of the channel mean |
| Config.NumPtsLocal | src/config.hpp:44 | `maxT()-minT()` as `uint16_t`: the window length, plus 65536 when the window is reversed |
| Config.AcqTime | src/config.hpp:45 | the acquisition time is defined exactly when the sampling rate is non-zero, non-negative, and times the rate gives numPtsGlobal |
| Config.NarrowGetters | src/config.hpp:37-48 | freq, imgScale, gain and selectPlane are their slot mod 256; a gain slot of 0x10A reads as 10 |
| Config.DefaultReadings | src/config.hpp:9-48 | with the defaults the getters report 10, 1, 100, 1000, a window of 1000 points, 10 µs, 10, 1550, true and 40 |
| Config.ReversedWindowWraps | src/config.hpp:44 | minT 1000 and maxT 0 give 64536 local points |
| Config.Freq | src/config.hpp:37 | slot 0 returned as `uint8_t`, so mod 256 (NarrowGetters) |
| Config.ImgScale | src/config.hpp:38 | slot 1 returned as `uint8_t`, so mod 256 (NarrowGetters) |
| Config.SampRate | src/config.hpp:39 | slot 2, the sampling rate |
| Config.NumPtsGlobal | src/config.hpp:40 | slot 3, the global sample count |
| Config.MinT | src/config.hpp:41 | slot 4, the start of the acquisition window |
| Config.MaxT | src/config.hpp:42 | slot 5, the end of the acquisition window |
| Config.Gain | src/config.hpp:43 | slot 6 returned as `uint8_t`, so mod 256 (NarrowGetters) |
| Config.SpeedSound | src/config.hpp:46 | slot 7, the speed of sound |
| Config.BscanDP | src/config.hpp:47 | slot 8 converted to `bool`: true exactly when it is non-zero |
| Config.SelectPlane | src/config.hpp:48 | slot 9 returned as `uint8_t`, so mod 256 (NarrowGetters) |
| Config.ConfigStore.constructor | src/config.hpp:21-27 | the store starts with the ten defaults and no update scheduled |
| Config.ConfigStore.Update | src/config.hpp:29-33 | all ten values are copied at once and the flag is raised |
| Config.ConfigStore.FinishUpdate | src/config.hpp:35 | the flag is lowered and the values stay |
| Config.ConfigStore.ScheduledUpdate | src/config.hpp:36 | reports the flag |
| Screen.ImageSize | src/display/screen.hpp:7-15 | the image is 128-16 = 112 rows by 160-28-20 = 112 columns, the size the demodulator produces |
| Screen.Uniform | src/display/screen.hpp:26-31 | the column of IMG_HEIGHT pixels all of one shade that createUniform fills |
| Screen.BlackAndWhite | src/display/screen.hpp:33-34 | `BLACK` is IMG_HEIGHT zeros and `WHITE` is IMG_HEIGHT 255s |
| Screen.CreateUniform | src/display/screen.hpp:26-31 | the fill loop sets every one of the IMG_HEIGHT rows to the shade |
| ScreenConfig.TruncatedDefaults | src/display/screen.hpp:41-52 | the `uint8_t` literals keep their value mod 256: 40000 becomes 64, 3000 becomes 184, 1500 becomes 220, 5500 becomes 124 and 1550 becomes 14, so minT > maxT |
| ScreenConfig.Settings.constructor | src/display/screen.hpp:54-66 | the settings start from the truncated constants with bscan_dp true and no update scheduled |
| ScreenConfig.Settings.Update | src/display/screen.hpp:68-88 | every setting except img_scale takes its byte, bscan_dp becomes "non-zero", and the flag is raised |
| ScreenConfig.Settings.FinishUpdate | src/display/screen.hpp:90 | the flag is lowered |
| ScreenConfig.Settings.ScheduledUpdate | src/display/screen.hpp:91 | reports the flag |
| DisplayState.Display.constructor | src/display/display.hpp:21-27 | the display state starts with nothing blanked and no column drawn, and with the column counter that the serial server resets at 0 (an assumption: the class declares no such field) |
| DisplayState.Display.ClearInner | src/display/display.cpp:129-132 | the image area is blanked and the column counter is not touched |
| DisplayState.Display.RenderColumn | src/display/display.cpp:93-108 | a column is refused exactly when its index is at or beyond the width; otherwise it is drawn |
| DisplayState.Display.ResetColumn | src/serial_server.hpp:121 | the display's column counter becomes 0 |
| SerialServer.TocBoundary | src/serial_server.hpp:46-48 | the timeout is strict (1000 ms is not yet, 1001 ms is) and measures across the wrap of millis() |
| SerialServer.Toc | src/serial_server.hpp:46-48 | `toc(tic)` holds when more than 1000 ms have passed, counting across the 32-bit wrap of millis() when now < tic |
| SerialServer.LittleEndian | src/serial_server.hpp:36-39 | the union's value has b0 as its low byte and b1 as its high byte |
| SerialServer.LittleEndianRoundTrip | src/serial_server.hpp:84-89 | every 16-bit value survives host encoding and union reassembly, and every byte pair survives the reverse |
| SerialServer.Encode16 | src/serial_server.hpp:36-39 | the host's two bytes of a 16-bit value, low byte first, whose little-endian value is the value itself |
| SerialServer.Signed16 | src/serial_server.hpp:41-44 | `i16.val` is the two's-complement reading of the same bits, in [-32768, 32768) |
| SerialServer.Centi | src/serial_server.hpp:113 | `i16.val / 100.`: a streamed sample in [-327.68, 327.68) whose hundredfold is the signed word |
| SerialServer.ReadPair | src/serial_server.hpp:88 | readBytes takes two bytes when there are two, and otherwise keeps the remaining union bytes stale |
| SerialServer.ReadState | src/serial_server.hpp:87-89 | the union always holds two bytes after any number of reads |
| SerialServer.ReadStateSuffix | src/serial_server.hpp:88 | successive reads consume the stream only from its front: what is left is a suffix of it |
| SerialServer.Words | src/serial_server.hpp:86-90 | i reads give i words |
| SerialServer.ReadStateOfFullStream | src/serial_server.hpp:87-89 | with enough bytes, the reads consume the stream two bytes at a time |
| SerialServer.WordsOfFullStream | src/serial_server.hpp:83-90 | with enough bytes, word k is the little-endian pair at bytes 2k and 2k+1 |
| SerialServer.StaleHighByte | src/serial_server.hpp:88 | a one-byte read after a union holding {1, 2} gives 7 + 2·256, and an empty read gives the old value |
| SerialServer.Samples | src/serial_server.hpp:110-114 | there is one streamed sample per word |
| SerialServer.Zeros | src/serial_server.hpp:60-61 | listen starts from numPtsLocal zeros |
| SerialServer.ListenSpec | src/serial_server.hpp:58-134 | listen as one step: zeros when no native port or no byte; NACK when BUSY; then HANDSHAKE, SETUP, STREAM, RESET or the default NACK; its properties are the lemmas below |
| SerialServer.ListenShape | src/serial_server.hpp:58-134 | every listen consumes input only from the front, sends at most two answers, each ACK or NACK, returns an array starting with numPtsLocal zeros, and leaves the status as it was or STANDBY |
| SerialServer.SetupStep | src/serial_server.hpp:78-97 | the SETUP branch after the opcode: ACK and the LED on; on arrival N_CFG words loaded, a second ACK, the LED off and STANDBY |
| SerialServer.SetupShape | src/serial_server.hpp:78-97 | the SETUP branch sends at most two answers, consumes only from the front, returns the zeros and sets no status other than STANDBY |
| SerialServer.StreamStep | src/serial_server.hpp:98-119 | the STREAM branch after the opcode: NACK outside STANDBY; else ACK and the LED on; on arrival the samples, a second ACK and the LED off |
| SerialServer.StreamShape | src/serial_server.hpp:98-119 | the STREAM branch sends at most two answers, consumes only from the front, keeps the zeros in front and never changes the status |
| SerialServer.NothingPending | src/serial_server.hpp:60-63 | without a connected native port or a pending byte, listen consumes nothing, sends nothing, changes nothing and returns numPtsLocal zeros |
| SerialServer.StatusOnlyBecomesStandby | src/serial_server.hpp:67-96 | the status changes only to STANDBY, and only by a SETUP whose payload arrived; so BUSY is never reached |
| SerialServer.OneByteAnswers | src/serial_server.hpp:74-128 | HANDSHAKE answers exactly one ACK and an unknown opcode exactly one NACK; only the opcode is consumed and no state changes |
| SerialServer.StreamRefusedUnlessStandby | src/serial_server.hpp:98-103 | STREAM outside STANDBY answers one NACK, consumes no payload and leaves the state and the zeros alone |
| SerialServer.PayloadTimeout | src/serial_server.hpp:78-107 | SETUP or STREAM without a payload in time: a single ACK, the LED left on, the zero array returned and the status unchanged |
| SerialServer.SetupLoadsWords | src/serial_server.hpp:78-97 | SETUP with its payload loads the ten little-endian words, answers ACK then ACK, turns the LED off and enters STANDBY |
| SerialServer.StreamAppendsSamples | src/serial_server.hpp:98-119 | STREAM in STANDBY appends numPtsLocal signed words in hundredths after the numPtsLocal zeros and answers ACK then ACK |
| SerialServer.DefaultStreamOverflows | src/serial_server.hpp:58-119 | with the default window, a full STREAM returns 2000 samples, more than the 1000 that receiveAScan's listen buffer holds |
| SerialServer.ResetAnswersAck | src/serial_server.hpp:120-124 | RESET resets the display and answers ACK, consuming only the opcode; the status is unchanged |
| SerialServer.UsbPort.constructor | src/serial_server.hpp:63-64 | the port starts with the bytes that will arrive, nothing sent and the LED off |
| SerialServer.UsbPort.Read | src/serial_server.hpp:64 | read() takes the next byte of the stream |
| SerialServer.UsbPort.Write | src/serial_server.hpp:68 | write(b) appends one byte to what was sent |
| SerialServer.UsbPort.SetLed | src/serial_server.hpp:80 | digitalWrite sets the builtin LED |
| SerialServer.UsbPort.Await | src/serial_server.hpp:81 | the wait ends with a byte exactly when one is pending and it arrives before the timeout |
| SerialServer.UsbPort.ReadBytes | src/serial_server.hpp:88 | readBytes moves the bytes that ReadPair describes from the stream into the union |
| SerialServer.SerialStream.constructor | src/serial_server.hpp:23-56 | a new stream is NOT_SETUP with both ports unflagged and the last port check at creation time |
| SerialServer.SerialStream.LoadSettings | src/serial_server.hpp:85-91 | the SETUP loop leaves the union and the stream after N_CFG reads, and the configuration holds the N_CFG words with the flag raised |
| SerialServer.SerialStream.ReadSamples | src/serial_server.hpp:110-114 | the STREAM loop appends the n words read, in hundredths, after the array |
| SerialServer.SerialStream.Listen | src/serial_server.hpp:58-134 | one listen leaves the link, the fields, the configuration and the display as the one-step protocol function says, and a reachable status stays reachable |
| SerialServer.SerialStream.HandleSetup | src/serial_server.hpp:78-97 | the SETUP branch after the opcode has the effect of the SETUP step |
| SerialServer.SerialStream.HandleStream | src/serial_server.hpp:98-119 | the STREAM branch after the opcode has the effect of the STREAM step |
| SerialServer.SerialStream.CheckConnections | src/serial_server.hpp:136-201 | under 1000 ms since the last check nothing changes; otherwise the time is recorded, each flag follows its port independently, and with update_display each flag that changed blanks the image and resets the column counter |
| SerialServer.SerialStream.S1 | src/serial_server.hpp:203 | reports the programming port's flag |
| SerialServer.SerialStream.S2 | src/serial_server.hpp:204 | reports the native port's flag |
| MainLoop.MainEchoesTruncated | src/main.cpp:49 | the float echo times `e[]` reach generateAScan as the truncated times 0, 1, 3, 3, 5, 6, 7 |
| MainLoop.ColumnAfter | src/main.cpp:86-87 | the column after k ticks is always below IMG_WIDTH |
| MainLoop.NextColumn | src/main.cpp:86-87 | one tick moves the cursor to the next column, or to 0 after the last |
| MainLoop.SweepVisitsEveryColumn | src/main.cpp:84-90 | IMG_WIDTH ticks from any start visit every column exactly once |
| MainLoop.Scanner.constructor | src/main.cpp:44 | `current_col` starts at 0 |
| MainLoop.Scanner.Tick | src/main.cpp:78-91 | while sleeping nothing changes; otherwise the A-scan of the current column is drawn when it has a value, the cursor advances mod IMG_WIDTH and the image is not blanked |
| MainLoop.Scanner.Advance | src/main.cpp:86-87 | the cursor becomes the next column mod IMG_WIDTH |

## Left out

- SignalProcessing.SignalProcessor.ReceiveAScan: models only the generator branch.
  The native-USB branch (src/signal_processor.hpp:176-184) is left out. Its window
  arithmetic `tlim/(init_res/200)` divides by zero for fewer than 200 local points
  and gives a float range that is not well defined.
- SignalProcessing.InterpLin: models `extrap_bounds = true`, the only value its caller
  passes. The other branch divides by `x[i+1]-x[i]`, which is zero on repeated
  abscissae and gives IEEE infinities or NaN.
- IEEE floating point is not modelled. All float arithmetic is exact arithmetic on
  `real`, so the model says nothing about rounding error, infinities or NaN.
- The sine, exponential and `random(2, 6)` terms of the echo generator, and their
  divide by zero at `tspan[i]-t-0.5 = 0`, are not modelled. They are supplied as
  parameters (`Shape` and the amplitude draws). Only the length, the zero prefix, the
  absolute value, the floor and the `1/(t+3)` weighting are fixed.
- The `Timer` measurements and `millis()` are not modelled. `millis()` becomes a
  parameter `now`.
- The 1000 ms payload wait is the oracle `inTime`. It says whether the pending byte
  arrives before the wait gives up.
- Several hardware conditions become plain inputs:
  - whether `Serial` and `SerialUSB` are present is a pair of booleans;
  - the sleep pin of `loop()` is a `sleeping` flag.
- The busy-wait on the sleep pin and the `delay` of `setup()` are not modelled.
- `readBytes` has its own timeout, which is not modelled. It returns what is already
  in the stream.
- The display is modelled only as the state the core acts on:
  - the column counter;
  - a count of blanks of the image area;
  - the sequence of columns drawn.
- Pixel drawing, text colours and the S1/S2 labels are not modelled.
- Serial debug prints are not modelled.
- `Array<T, N>` is modelled as an unbounded sequence. Capacity overflow is shown by
  `SerialServer.DefaultStreamOverflows` rather than imposed as a precondition. How the
  unseen array library behaves at capacity is not modelled.
- The union fields of `SerialStream` have no initialiser in the code. The model
  starts them at zero.
- DisplayState.Display.constructor: the `Display` class (src/display/display.hpp:21-27)
  declares no `current_col`, yet src/serial_server.hpp:121, 151, 164, 181 and 195
  assign `display_->current_col`. The model assumes a counter owned by the display that
  starts at 0. It is kept separate from the global `current_col` of src/main.cpp:44, so
  RESET and `checkConnections` do not rewind the main loop's cursor in this model.
- MainLoop.Scanner.Tick: a column without a defined value is not drawn, and the cursor
  still advances. This covers a waveform whose maximum is 0 (the normalisation divides
  by zero) and a single-peak envelope, where downsample reads `array[1]` past the end.
- `Config` getters with a slot wider than their result are modelled by the explicit
  narrowing `ToU8`.
- DemodulatorPy.DownsampleNatural: a negative npts raises ValueError in `np.zeros`;
  `npts: nat` excludes it.
- `Config.DefaultReadings` states the acquisition time exactly as 10.0, whereas the
  code computes a float.
- The plotting `main()` of `util/demodulator.py` and its scipy-based `downsample` are
  not part of this model.
- Several parts of the repository are not part of this model. None of them is part
  of the demodulation core:
  - `util/waveform_renderer.py`;
  - the pupil detection programs;
  - the host serial client;
  - the superseded `src/demodulator.cpp`;
  - the display drivers.
- 32-bit overflow of `millis() - port_update_` is modelled by `SubU32`.
- SignalProcessing.Downsample: `i*(oldsize-1)` is a signed 32-bit `int` product of
  two 16-bit values and could overflow. The method therefore requires the last
  pass's product `(npts-2)*(oldsize-1)` to fit. `EnvelopeSpec.DownsampleProductsFit`
  shows it does for every array up to the capacity of 1000 that the callers use.
  `EnvelopeSpec.DownsampleSpec` and the Python `DemodulatorPy.DownsampleNatural`
  compute the products exactly, as Python's unbounded integers do.
- Demodulator.CompileWaveform: requires fewer than 256 echo times. The loop counter
  of `generateAScan` is a `uint8_t t`, so with 256 or more echoes the loop would
  never end. The only caller passes 7.
- Demodulator.GenerateAScan: requires fewer than 256 echo times, for the same
  `uint8_t` loop counter.
- Demodulator.GenerateBScan: requires fewer than 256 echo times, for the same
  `uint8_t` loop counter.

## Findings

| source | as written | input that shows it | evidently intended | confidence | as-written member | corrected member |
|---|---|---|---|---|---|---|
| src/util/color_util.h:19 | `round((r+g+b)/3)` divides in integers, so the average of the channels is floored before `round` sees it | word 0x2104, the encoding of shade 32, decodes to 32; word 1 decodes to 2 where the rounded average is 3 | the channel average rounded to nearest, as the Python decoders compute it | not executed | ColorUtil.FloorDecoderExamples | ColorUtil.Gray16ToRGB565Nearest |
| src/signal_processor.hpp:231 | the `env_max_` update loop starts at row 1, so row 0 can exceed the maximum and its shade can leave 0..255 | envelope [2, 1] with a fresh `env_max_` of 0: the maximum is 1 and row 0's shade is 510 | the maximum taken over every row from 0, so every shade fits a byte | not executed | EnvelopeSpec.RowZeroOverflows | EnvelopeSpec.CorrectedColumnFits |

The pipeline members (`SignalProcessing.Convert`, `SignalProcessing.AScan`,
`SignalProcessing.BScan` and the `SignalProcessor` methods) model the code as written,
with the maximum folded from row 1. The corrected conversion is `GreyColumn` applied
to `RunningMax` from row 0, and `EnvelopeSpec.CorrectedColumnFits` proves that
conversion never fails for a non-negative envelope. In the same way, the device's
floored decoder `ColorUtil.Gray16ToRGB565` is kept as written. The Python decoders
are proved equal to the corrected `ColorUtil.Gray16ToRGB565Nearest`.
