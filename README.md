# Feetech servo calibration, modelled in Dafny

This project models the core of the Feetech STS/SCS bus-servo bridge. It covers two source files:

- `feetech-calibrate`, the interactive range-finding tool (`src/bin/calibrate.rs`). It polls the present position of every configured servo over a serial bus, tracks each servo's minimum and maximum, and emits a calibration when the operator presses Enter.
- The calibration data model (`src/calibration.rs`). It covers the output unit, each servo's `{id, min, max}`, the center and range derived from them, and the lookup of a center by bus id.

Modules:

- `Ints`, `Wrappers` (`base.dfy`): `u8` and `u16` as bounded integers; `Option` and `Result`.
- `Protocol` (`protocol.dfy`): the wire protocol, which covers the checksum, instruction framing, reply decoding and the present-position read. The serial link is a `Port` object with two parts. `written` is every byte sent. `pending` is what the bus delivers from now on: a sequence of bytes and quiet spells (`Silence`), each spell longer than the link's read timeout. A read whose bytes do not all arrive before the next quiet spell times out. It loses the bytes that did arrive, ends with the spell, and leaves everything after the spell for the next read. A servo that does not answer is a quiet spell where its reply would be.
- `CommandLine` (`commandline.dfy`): the argument split and `str::parse::<u8>` for the servo ids.
- `Sampling` (`sampling.dfy`): the sampling loop. It runs over two arrays: `mins` starts at 65535 and `maxs` at 0. It also covers the assembly of the result. The specification functions `Observed`, `Lowest` and `Highest` say what the arrays hold after any sequence of cycles.
- `Calibration` (`calibration.rs` → `calibration.dfy`): `Units`, `ServoCalibration`, `CalibrationData`.
- `Tool` (`tool.dfy`): `main` from the command line to the data it saves.

Behaviour of the source that the model keeps:

- The checksum of a reply is not verified. Neither is the id or error byte of a reply: a reply is accepted whatever servo it claims to come from.
- The length byte of an outgoing packet is truncated to 8 bits. The decode round trip therefore holds only for at most 253 parameters.
- Once the arguments are split, the id list always holds at least one entry. `ParseCommandLine` proves that its "at least one servo ID required" exit can never be taken.
- An id that is not a `u8` makes the source panic through `expect`. The model returns this as `BadServoId`, not as exit code 1.
- Bytes `0..=255`, optionally preceded by `+` and with leading zeros allowed, are the strings `parse::<u8>` accepts.
- A servo that is never read keeps the sentinels `min = 65535`, `max = 0`. Its `range()` is 0, the same as a servo that never moved.
- `center()` is computed in `f32` in the source. For `u16` inputs the sum is below 2^24 and halving is exact, so the model's `real` is the source's value.
- Only `raw`, `deg` and `rad` are units. The message documentation also lists a `"normalize"` unit (messages.rs:9), but `calibration.rs` does not implement it, so the model leaves it out too.

## Model

| member | source | states |
|---|---|---|
| `Protocol.ChecksumOf` | components/bridges/cu_feetech/src/bin/calibrate.rs:26-32 | the checksum is the byte that brings the 8-bit sum of the data to 0xFF, i.e. the bitwise NOT of the wrapping sum |
| `Protocol.Checksum` | components/bridges/cu_feetech/src/bin/calibrate.rs:26-32 | the loop of wrapping additions followed by `!` returns exactly that checksum |
| `Protocol.Frame` | components/bridges/cu_feetech/src/bin/calibrate.rs:35-42 | the packet is `FF FF id len instr params.. cksum`: 6 + |params| bytes, with `len = (|params| + 2) mod 256` and the last byte the checksum of the bytes from `id` through the params |
| `Protocol.FrameSumsToAllOnes` | components/bridges/cu_feetech/src/bin/calibrate.rs:35-42 | every byte after the header, checksum included, sums to 0xFF mod 256 |
| `Protocol.ReadRequestVector` | components/bridges/cu_feetech/src/bin/calibrate.rs:22-24 | the read request for servo 1 is `FF FF 01 04 02 38 02 BE`, checked against a hand-computed checksum |
| `Protocol.SendPacket` | components/bridges/cu_feetech/src/bin/calibrate.rs:34-45 | building the packet byte by byte writes exactly `Frame(id, instr, params)` to the link and reads nothing |
| `Protocol.DecodeReply` | components/bridges/cu_feetech/src/bin/calibrate.rs:47-57 | fewer than 4 bytes fail; a bad header fails after taking exactly 4 bytes; a good header followed by fewer than `len` bytes fails with `Io` after taking all of them; a length byte below 2 fails with `BadLength` after taking `4 + len` bytes; on success `len` more bytes are taken and the payload is them minus the first (error) and last (checksum) byte, of length `len - 2`; success iff header, `len >= 2` and enough bytes |
| `Protocol.ReadResponse` | components/bridges/cu_feetech/src/bin/calibrate.rs:47-57 | the two `read_exact` calls return `DecodeStream` of what the link delivers, and use up exactly what it consumes |
| `Protocol.Port.ReadExact` | components/bridges/cu_feetech/src/bin/calibrate.rs:49-55 | `n` bytes arriving before the next quiet spell are returned and taken; otherwise the read fails with `Io` and takes the bytes before the spell and the spell, nothing after it |
| `Protocol.DecodeStream` | components/bridges/cu_feetech/src/bin/calibrate.rs:47-57 | the reply is decoded from the bytes before the next quiet spell; a successful or rejected reply never reaches past the spell; a timed-out read consumes exactly up to and including the spell |
| `Protocol.DecodeStreamWithoutSilence` | components/bridges/cu_feetech/src/bin/calibrate.rs:47-57 | on a link that never falls silent, reading a reply is `DecodeReply` of its bytes |
| `Protocol.ReplyArrives` | components/bridges/cu_feetech/src/bin/calibrate.rs:35-56 | a reply framed like `send_packet`'s output that arrives in one piece is read back as its params, taking 6 + |params| arrivals |
| `Protocol.SilenceSkipsOneRead` | components/bridges/cu_feetech/src/bin/calibrate.rs:47-49 | a servo that goes quiet before its 4-byte header is complete fails that read only: the partial header and the quiet spell are used up, and what follows is left for the next read |
| `Protocol.FrameDecodes` | components/bridges/cu_feetech/src/bin/calibrate.rs:35-56 | a reply framed like `send_packet`'s output (at most 253 params) decodes to exactly its params and takes 6 + |params| bytes |
| `Protocol.PositionFromPayload` | components/bridges/cu_feetech/src/bin/calibrate.rs:62-65 | fails iff the payload is shorter than 2 bytes; otherwise the value's little-endian bytes are the first two payload bytes |
| `Protocol.Le16RoundTrip` | components/bridges/cu_feetech/src/bin/calibrate.rs:65 | a payload starting with the little-endian bytes of `v` reads as `v` |
| `Protocol.ReadPosition` | components/bridges/cu_feetech/src/bin/calibrate.rs:59-66 | sends the read of 2 bytes at register 56 and returns the position from `DecodeStream` of what the link delivers, consuming just that reply or timeout |
| `Protocol.PositionReplyRoundTrip` | components/bridges/cu_feetech/src/bin/calibrate.rs:53-65 | a well-framed reply carrying `v`, arriving in one piece, reads as position `v` and takes 8 bytes |
| `Protocol.DecodeReplyAsWritten` | components/bridges/cu_feetech/src/bin/calibrate.rs:53-56 | the decoder as written panics exactly when the header is good, the length byte is below 2 and that many bytes arrived |
| `Protocol.ZeroLengthReplyPanics` | components/bridges/cu_feetech/src/bin/calibrate.rs:53-56 | the reply `FF FF 01 00` panics the decoder as written; the corrected decoder reports `BadLength` |
| `Protocol.DecodeReplyRepairsPanic` | components/bridges/cu_feetech/src/bin/calibrate.rs:50-56 | the corrected decoder agrees with the one as written everywhere the latter returns, and reports `BadLength` exactly where it panics |
| `CommandLine.SplitArgs` | components/bridges/cu_feetech/src/bin/calibrate.rs:79-85 | the last argument is the output path iff there are more than 3 arguments and it ends in `.json`; otherwise all of `args[2..]` are ids and the path is `calibration.json`; the id list is never empty |
| `CommandLine.ParseU8` | components/bridges/cu_feetech/src/bin/calibrate.rs:88 | a string parses as a `u8` iff it is an optional `+` then at least one decimal digit with a value of at most 255 (so `+5` and `007` parse), and the result is that value |
| `CommandLine.ParseU8Examples` | components/bridges/cu_feetech/src/bin/calibrate.rs:88 | `+5` and `007` parse to 5 and 7 and `255` to 255; `256`, `-1`, a bare `+` and the empty string are rejected |
| `CommandLine.ParseU8OfDecimal` | components/bridges/cu_feetech/src/bin/calibrate.rs:88 | the decimal numeral of every `n <= 255` parses to `n`; the numeral of a larger number is rejected |
| `CommandLine.ParseIds` | components/bridges/cu_feetech/src/bin/calibrate.rs:86-89 | succeeds iff every id argument parses, giving the ids in argument order |
| `CommandLine.ParseCommandLine` | components/bridges/cu_feetech/src/bin/calibrate.rs:71-93 | fewer than 3 arguments is a usage error. With 3 or more, the command line is accepted iff every id argument parses, and then device, ids and output path come from the split. The empty-id error never occurs |
| `CommandLine.DocumentedCommandLines` | components/bridges/cu_feetech/src/bin/calibrate.rs:72-93 | `dev 1 2 out.json` gives ids `[1, 2]` and `out.json`; `dev 1 2` gives ids `[1, 2]` and `calibration.json`; `dev out.json` is a bad id |
| `Sampling.Lowest` | components/bridges/cu_feetech/src/bin/calibrate.rs:100-120 | the running minimum is at most every reading and is either 65535 or one of the readings |
| `Sampling.Highest` | components/bridges/cu_feetech/src/bin/calibrate.rs:101-121 | the running maximum is at least every reading and is either 0 or one of the readings |
| `Sampling.ObservedReads` | components/bridges/cu_feetech/src/bin/calibrate.rs:117-123 | a value is among a servo's observed readings iff some cycle read that servo successfully with that value |
| `Sampling.CalibratedExtremes` | components/bridges/cu_feetech/src/bin/calibrate.rs:100-146 | after any sequence of cycles, entry `i` has id `ids[i]`, and its min and max are the minimum of 65535 and all successful reads of servo `i` and the maximum of 0 and those reads |
| `Sampling.OneMoreCycle` | components/bridges/cu_feetech/src/bin/calibrate.rs:118-123 | a cycle never raises a min nor lowers a max; a successful read ends between the two; a failed read leaves the entry unchanged |
| `Sampling.UnreadServoKeepsSentinels` | components/bridges/cu_feetech/src/bin/calibrate.rs:100-101 | a servo with no successful read ends as `{id, min: 65535, max: 0}` with range 0 |
| `Sampling.CalibratedLookup` | components/bridges/cu_feetech/src/calibration.rs:132-134 | with distinct ids, looking up servo `i`'s id in the result finds servo `i`'s entry |
| `Sampling.FiveCycleScenario` | components/bridges/cu_feetech/src/bin/calibrate.rs:117-123 | readings 100, 150, 90, 200, 90 leave min 90, max 200 |
| `Sampling.FailureToleranceScenario` | components/bridges/cu_feetech/src/bin/calibrate.rs:119-122 | readings 100, failure, 300, failure leave min 100, max 300 |
| `Sampling.SampleServo` | components/bridges/cu_feetech/src/bin/calibrate.rs:119-122 | one read of servo `i` folds into `mins[i]`/`maxs[i]` and leaves every other entry unchanged |
| `Sampling.SampleCycle` | components/bridges/cu_feetech/src/bin/calibrate.rs:118-123 | one cycle reads each servo in order off the link; each min never rises, each max never falls, and every successful read ends between them |
| `Sampling.SilentServoSkipped` | components/bridges/cu_feetech/src/bin/calibrate.rs:118-122 | with the first of two servos silent and the second answering `v`, one cycle sees `[None, Some(v)]` and leaves exactly what follows the second reply |
| `Sampling.BothServosAnswer` | components/bridges/cu_feetech/src/bin/calibrate.rs:118-122 | a cycle in which both servos answer sees both positions and takes both replies |
| `Sampling.SilentServoRecovers` | components/bridges/cu_feetech/src/bin/calibrate.rs:117-123 | a servo silent in one cycle and answering in the next is seen in the second cycle, with the other servo read in both |
| `Sampling.TrackExtremes` | components/bridges/cu_feetech/src/bin/calibrate.rs:116-134 | starting from the sentinels, after any number of cycles `mins[i]`/`maxs[i]` are the extremes of servo `i`'s successful reads over the cycles the link produced |
| `Sampling.RangeFind` | components/bridges/cu_feetech/src/bin/calibrate.rs:100-150 | after any number of cycles the result has one entry per id, in order, `{ids[i], mins[i], maxs[i]}`, equal to `Calibrated` of what the cycles read |
| `Tool.RunCalibration` | components/bridges/cu_feetech/src/bin/calibrate.rs:70-152 | a rejected command line ends the run without touching the link; an accepted one yields the output path and the calibration of the sampled cycles |
| `Calibration.UnitsFromStr` | components/bridges/cu_feetech/src/calibration.rs:28-35 | exactly `"raw"`, `"deg"` and `"rad"` parse, each to the unit of that name; every other string is `None` |
| `Calibration.UnitNamesParse` | components/bridges/cu_feetech/src/calibration.rs:28-35 | every unit's name parses back to that unit |
| `Calibration.DefaultUnits` | components/bridges/cu_feetech/src/calibration.rs:15-19 | the default unit is the one `"raw"` parses to |
| `Calibration.ServoCalibration.Center` | components/bridges/cu_feetech/src/calibration.rs:101-103 | twice the center is `min + max`; with `min <= max` it lies between them |
| `Calibration.ServoCalibration.Range` | components/bridges/cu_feetech/src/calibration.rs:106-108 | with `min <= max`, `min + range == max`; otherwise the range saturates to 0 |
| `Calibration.UnsampledServo` | components/bridges/cu_feetech/src/calibration.rs:101-108 | the unsampled sentinel `{min: 65535, max: 0}` has range 0 and center 32767.5 |
| `Calibration.FirstIndexOf` | components/bridges/cu_feetech/src/calibration.rs:133 | `None` iff no entry has the id; otherwise the index of an entry with that id before which none has it |
| `Calibration.CalibrationData.CenterFor` | components/bridges/cu_feetech/src/calibration.rs:132-134 | `None` iff no entry has the id; otherwise the center of the first entry with that id |
| `Calibration.LaterEntriesIgnored` | components/bridges/cu_feetech/src/calibration.rs:132-134 | entries appended after a match never change the center found |
| `Calibration.UniqueIdsLookup` | components/bridges/cu_feetech/src/calibration.rs:132-134 | with unique ids, each entry's id looks up that entry's center |

## Left out

- `Units::from_raw` and `Units::to_raw` (calibration.rs:52-84): `f32` arithmetic through the external `cu29` angle type, with rounding and clamping. Floating point is not modelled.
- `CalibrationData::load` and `save` (calibration.rs:118-127): file I/O and JSON through `serde_json`. The model ends with the `CalibrationData` that `save` would write.
- Opening the serial device (calibrate.rs:96-97; 1,000,000 baud, 10 ms timeout) and its panic on failure. The link is a `Port` given by the caller.
- Failing writes and flushes: `Port.WriteAll` always succeeds. A write error would make that read fail, which the loop would skip like any other failed read.
- Timeout timing is reduced to the order of bytes and quiet spells. The 10 ms duration does not appear. A spell that falls inside a reply is expressed only by where the `Silence` marker sits.
- The stdin thread and its `AtomicBool` (calibrate.rs:108-114, 117): the operator's Enter becomes the number of cycles `RangeFind` runs. The lag of up to one cycle before the flag is seen is not modelled.
- Console output: the usage text, the live summary every 30 cycles and the final summary (calibrate.rs:73-75, 103-105, 126-133, 136, 154-164). The cycle counter survives only as the loop index.
- Non-Unicode arguments, on which `std::env::args` panics.
- examples/cu_feetech_demo/src/main.rs, components/bridges/cu_feetech/src/messages.rs and components/bridges/cu_ros2_bridge/src/attachment.rs are not part of this model. They are runtime wiring, a type alias over an external array type, and a wrapper over an external serializer.

## Findings

| source | as written | input that shows it | evidently intended | confidence | as-written member | corrected member |
|---|---|---|---|---|---|---|
| components/bridges/cu_feetech/src/bin/calibrate.rs:53-56 | a reply whose length byte is 0 or 1 makes `rest[1..rest.len() - 1]` out of bounds (underflow for 0, start past end for 1). The run then panics, and the calibration is lost without being saved | reply bytes `FF FF 01 00` | report an error, so the sampling loop skips the read like any other failed read | not executed; high (Rust slice indexing) | `Protocol.DecodeReplyAsWritten`, `Protocol.ZeroLengthReplyPanics` | `Protocol.DecodeReply`, `Protocol.DecodeReplyRepairsPanic` |
