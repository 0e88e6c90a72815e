# LabJack T7 driver: a verified model

This project models the two `LabJackT7Driver` classes of the LabJack T7
Python driver and proves what they do with the device.

- The package driver keeps per-channel configuration in memory: sixteen
  display names, RMS flags and measurement types. It writes voltage ranges and
  negative channels to the device. Its `read_samples` goes over AIN0..AIN15 in
  turn. Each channel is read directly, or, when its RMS flag is set, by a
  1000-sample stream burst whose RMS is computed in software.
- The older top-level driver has eight inputs and no in-memory
  configuration. It reads all requested channels in one batched call.

The LJM library is modelled as a port (`Ljm.Port`). The port records every
call in a log, and a `Device` value gives the answer to each call. An answer
may depend on all earlier calls, so a stream read can depend on the stream
start before it. Every call may fail with an `LJMError`.

The loops of `read_samples` and `_stream_rms_sequential` are methods with
loop invariants. Each is proved equal to a pure function of the device and
the log (`Sampling.ReadSamples`, `Sampling.StreamRmsSequential`). The
properties of the sampling pass are then proved as lemmas about those
functions:
- the order of the device calls;
- that the pass stops at the first failure and raises it;
- that a stream is never stopped after its start or its read failed;
- the keys and values of the result.

`math.sqrt` is a parameter `sqrt: real -> real`. Every lemma about the RMS
value assumes that `sqrt` returns the non-negative square root.

Some quirks of the code are kept on purpose, and a lemma states each one:
- RMS flags are looked up under the string key "AIN{i}" only. A flag stored
  under an integer key is never consulted (`Sampling.IntegerKeyIgnored`).
- The result of `read_samples` is keyed by "AIN0".."AIN15", whatever the
  display names are (`Sampling.ReadSamplesResult`).
- The value stored for an RMS channel is the one-entry map that
  `_stream_rms_sequential` returns, not a number.
- A failed stream start or stream read is never followed by a stream stop
  (`Sampling.BurstStopsAfterSuccess`, from `Sampling.BurstOrder` and
  `Sampling.BurstFailsFast`).
- An empty burst raises `ZeroDivisionError`. It is not wrapped
  (`Sampling.EmptyBurst`), and it passes through `read_samples` unchanged
  (`Sampling.EmptyBurstRaised`).
- The differential negative channel is written as given, with no range check.

## Model

| member | source | states |
|---|---|---|
| Names.NatToStringInjective | LabjackClient/LabJackT7Driver.py:17 | two different numbers render as two different decimal strings |
| Names.AinNameInjective | LabjackClient/LabJackT7Driver.py:89 | "AIN{i}" names two different channels differently |
| Names.DefaultChannelNamesDistinct | LabjackClient/LabJackT7Driver.py:17 | the default channel names "AIN0".."AIN{n-1}" are pairwise distinct |
| Common.NegativeChannelValue | LabjackClient/LabJackT7Driver.py:68-76 | single-ended selects 199; differential selects the given channel exactly when one is given, unchecked; any other type, or differential without a channel, is a ValueError |
| Common.RangeRegisterInjective | LabjackClient/LabJackT7Driver.py:55 | "AIN{channel}_RANGE" names a different register for each channel, in both directions |
| Common.NegativeChannelRegisterInjective | LabjackClient/LabJackT7Driver.py:79 | "AIN{channel}_NEGATIVE_CH" names a different register for each channel, in both directions |
| Common.VoltageRangeTable | LabjackClient/LabJackT7Driver.py:7-12 | the range table accepts exactly "10V", "1V", "0.1V" and "0.01V", mapped to 10, 1, 0.1 and 0.01, all positive |
| Common.WrapWrite | LabjackClient/LabJackT7Driver.py:57-58 | a write that passes passes; a failed write is re-raised as Exception with the given message and the LJM error as its cause |
| Rms.SumOfSquares | LabjackClient/LabJackT7Driver.py:141 | the sum of the squared samples is never negative |
| Rms.MeanSquare | LabjackClient/LabJackT7Driver.py:142 | the mean of the squares is non-negative and times the count gives the sum of the squares |
| Rms.CalculateRms | LabjackClient/LabJackT7Driver.py:139-144 | fails exactly on an empty list, and then with ZeroDivisionError; otherwise the result is non-negative and squares to the mean of the squares |
| Rms.RmsOfConstant | LabjackClient/LabJackT7Driver.py:139-144 | a constant burst of c has RMS \|c\| |
| Rms.RmsBoundedByPeak | LabjackClient/LabJackT7Driver.py:139-144 | the RMS of a non-empty burst never exceeds its peak magnitude |
| Sampling.IsRmsChannel | LabjackClient/LabJackT7Driver.py:94 | a channel with no flag under its string name is read directly; otherwise its flag decides |
| Sampling.IntegerKeyIgnored | LabjackClient/LabJackT7Driver.py:94 | a flag stored under an integer key never changes whether a channel is read by RMS |
| Sampling.StringKeySelects | LabjackClient/LabJackT7Driver.py:94 | a flag stored under the channel's string name decides its path |
| Sampling.Burst | LabjackClient/LabJackT7Driver.py:115-135 | one burst only appends to the log, and a successful burst's RMS is non-negative |
| Sampling.BurstOrder | LabjackClient/LabJackT7Driver.py:117-135 | a burst issues address lookup, stream start (1000 samples, 1 address, the looked-up address, 25000/s), read, stop, as a prefix in that order; stop is issued exactly when all four calls are; success needs all four |
| Sampling.BurstFailsFast | LabjackClient/LabJackT7Driver.py:115-135 | every call of a burst but the last succeeded, and the last failed exactly when the burst re-raises that failure |
| Sampling.BurstValue | LabjackClient/LabJackT7Driver.py:125-132 | a successful burst returns the RMS of the data its stream read returned |
| Sampling.EmptyBurst | LabjackClient/LabJackT7Driver.py:125-144 | a burst whose read answers no data, with every call succeeding, raises the bare ZeroDivisionError |
| Sampling.BurstStopsAfterSuccess | LabjackClient/LabJackT7Driver.py:115-135 | when a burst stops its stream, it issued exactly four calls and its lookup, start and read all succeeded |
| Sampling.StreamRmsFrom | LabjackClient/LabJackT7Driver.py:113-137 | the remaining iterations of `_stream_rms_sequential` only append to the port's log |
| Sampling.StreamRmsSequential | LabjackClient/LabJackT7Driver.py:107-137 | `_stream_rms_sequential` only appends to the port's log |
| Sampling.StreamRmsSingle | LabjackClient/LabJackT7Driver.py:96 | `_stream_rms_sequential([channel])` is one burst, and on success the one-entry map from the channel to its RMS |
| Sampling.StreamRmsResult | LabjackClient/LabJackT7Driver.py:113-137 | on success the keys are exactly the channels given; each channel's value is the RMS of the data read by the last burst for that channel in this call (a burst begun by its address lookup, with no later lookup of it), and so non-negative |
| Sampling.StreamRmsOrder | LabjackClient/LabJackT7Driver.py:115-135 | the channels are taken up in the order given, one burst each, and all of them on success |
| Sampling.StreamRmsFromFailsFast | LabjackClient/LabJackT7Driver.py:115-137 | no failure of a burst is swallowed and none is followed by another call |
| Sampling.ReadChannel | LabjackClient/LabJackT7Driver.py:93-103 | one channel's step only appends to the log, and a successful reading is the RMS map exactly when the channel is flagged |
| Sampling.ReadChannelExplained | LabjackClient/LabJackT7Driver.py:94-100 | a channel's reading is what the device answered for it in the calls this step issued: its direct read, or the RMS of its burst's data |
| Sampling.ReadSamplesFrom | LabjackClient/LabJackT7Driver.py:92-105 | the remaining iterations of `read_samples` only append to the port's log |
| Sampling.ReadSamples | LabjackClient/LabJackT7Driver.py:88-105 | `read_samples` only appends to the port's log |
| Sampling.EmptyBurstRaised | LabjackClient/LabJackT7Driver.py:92-103 | with AIN0 flagged and its burst reading no data, `read_samples` raises the bare ZeroDivisionError |
| Sampling.ReadSamplesFailsFast | LabjackClient/LabJackT7Driver.py:92-103 | `read_samples` stops at the first failing device call and raises it; when it returns, every call it issued succeeded |
| Sampling.ReadSamplesOrder | LabjackClient/LabJackT7Driver.py:89-103 | AIN0..AIN15 are taken up in order, each by a direct read or an address lookup as its flag selects, and all sixteen on success |
| Sampling.ReadSamplesResult | LabjackClient/LabJackT7Driver.py:88-105 | on success the keys are exactly "AIN0".."AIN15", sixteen of them; each reading is what the device answered for that channel in the calls this `read_samples` issued; RMS readings are non-negative |
| Driver.LabJackT7Driver.constructor | LabjackClient/LabJackT7Driver.py:14-22 | sixteen names "AIN0".."AIN15", no RMS flags, no measurement types; the range is the one given, "10V" by default |
| Driver.LabJackT7Driver.Stop | LabjackClient/LabJackT7Driver.py:38-43 | one stream stop whose failure is ignored; nothing else changes |
| Driver.LabJackT7Driver.SetRange | LabjackClient/LabJackT7Driver.py:50-58 | an unknown range is a ValueError with no call; otherwise one write of the table value to the channel's range register, whose failure is re-raised; no field changes |
| Driver.LabJackT7Driver.SetChannelName | LabjackClient/LabJackT7Driver.py:60-63 | a position outside 0..15 is a ValueError and the names are unchanged; otherwise only that name is replaced; there stay sixteen names |
| Driver.LabJackT7Driver.GetChannelNames | LabjackClient/LabJackT7Driver.py:65-66 | returns the current names |
| Driver.LabJackT7Driver.ConfigureMeasurementType | LabjackClient/LabJackT7Driver.py:68-83 | the type defaults to single-ended and the channel to none; a rejected type or missing channel is raised with no write; otherwise one write of the negative channel; the type is recorded only when that write succeeds |
| Driver.LabJackT7Driver.SetChannelRms | LabjackClient/LabJackT7Driver.py:85-86 | sets exactly the one flag under the key given |
| Driver.LabJackT7Driver.ReadSamples | LabjackClient/LabJackT7Driver.py:88-105 | the loop's result and the calls it issues are those of `Sampling.ReadSamples` |
| Driver.LabJackT7Driver.StreamRmsSequential | LabjackClient/LabJackT7Driver.py:107-137 | the loop's result and the calls it issues are those of `Sampling.StreamRmsSequential` |
| Client.RequestedChannels | LabjackClient.py:50-51 | the channels given are requested as given; with none given, "AIN0".."AIN7" in order |
| Client.Zip | LabjackClient.py:56 | `dict(zip(keys, values))` has as keys exactly the keys paired with a value |
| Client.ZipAt | LabjackClient.py:56 | a key not repeated later maps to the value at its own position |
| Client.DefaultRequest | LabjackClient.py:50-51 | with no channels given, the request is exactly "AIN0".."AIN7" |
| Client.DefaultRequestPairs | LabjackClient.py:50-56 | a full answer to the default request maps each of the eight names to the value at its position, and has eight entries |
| Client.LabJackT7Driver.constructor | LabjackClient.py:12-18 | the driver holds the opened device |
| Client.LabJackT7Driver.SetRange | LabjackClient.py:20-29 | an unknown range is a ValueError with no call; otherwise one write of the table value, whose failure is re-raised |
| Client.LabJackT7Driver.ConfigureMeasurementType | LabjackClient.py:31-46 | the type defaults to single-ended and the channel to none; a rejected type or missing channel is raised with no write; otherwise one write of the negative channel, whose failure is re-raised; nothing is recorded |
| Client.LabJackT7Driver.ReadSamples | LabjackClient.py:48-58 | with no channels given by default, "AIN0".."AIN7"; one batched read of the requested channels; success pairs names with values by position; a failure is re-raised with no map |
| Client.LabJackT7Driver.Start | LabjackClient.py:60-61 | changes nothing |
| Client.LabJackT7Driver.Stop | LabjackClient.py:63-64 | changes nothing |

## Left out

- Opening and closing the device is not modelled. This covers the package driver's `start` (`openS`, `getHandleInfo`, and the loop that applies the voltage range to every input), both `close` methods, and the top-level constructor's open. These are I/O; the port stands for the open handle.
- `ip_address` and `connection_type` are not modelled, because only the device opening uses them. The top-level constructor's `voltage_range` is not modelled either, because that constructor never uses it.
- Logging and `print` calls are not modelled, because they are presentation only.
- Floating point is not modelled. Samples and ranges are `real`, with exact arithmetic.
- Rms.CalculateRms: `math.sqrt` is a parameter, so the root's properties are stated only for a `sqrt` that returns the non-negative root.
- The comment that a burst covers three 60 Hz cycles is not modelled.
- The actual scan rate that `eStreamStart` returns is dropped, because the code only logs it.
- The model keeps only the first part of the tuples that `nameToAddress` and `eStreamRead` return: the address, and the data.
- An exception's message is kept apart from its LJM cause. The cause's text is not rendered into the string.
- Driver.LabJackT7Driver.GetChannelNames returns the names as a value. The caller does not share the driver's list, as it does in Python.
- Python's dynamic typing is not modelled. This includes truthiness of non-boolean flag values and flag keys other than strings and integers. It also includes non-integer channel and position arguments.
- The negative-channel number is written as a `real`, because `eWriteName` writes a number.
- The configuration loader, the example script, the packaging script and the top-level module's demo block are not part of this model.
