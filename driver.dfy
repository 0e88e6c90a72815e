/** The package driver, `LabJackT7Driver` of LabjackClient/LabJackT7Driver.py:
    a per-channel configuration store (names, RMS flags, measurement types)
    that drives the port. */
module Driver {
  import opened Results
  import opened Names
  import opened Ljm
  import opened Common
  import opened Rms
  import opened Sampling

  class LabJackT7Driver {
    /** `self.handle`: the open device. */
    const port: Port
    /** `math.sqrt` */
    const sqrt: real -> real
    /** `self.voltage_range`: the range `start` would apply to every input. */
    const voltageRange: string
    /** `self.channel_names` */
    var channelNames: seq<string>
    /** `self.channel_rms_flags` */
    var channelRmsFlags: map<Key, bool>
    /** `self.channel_types` */
    var channelTypes: map<int, string>

    /** The list of channel names keeps one entry per analog input. */
    ghost predicate Valid()
      reads this
    {
      |channelNames| == NumAnalogInputs
    }

    /** `__init__`, given the device the handle will refer to. */
    constructor (port: Port, sqrt: real -> real, voltageRange: string := "10V")
      ensures Valid()
      ensures this.port == port && this.sqrt == sqrt && this.voltageRange == voltageRange
      ensures channelNames == DefaultChannelNames(NumAnalogInputs)
      ensures channelRmsFlags == map[] && channelTypes == map[]
    {
      this.port := port;
      this.sqrt := sqrt;
      this.voltageRange := voltageRange;
      channelNames := DefaultChannelNames(NumAnalogInputs);
      channelRmsFlags := map[];
      channelTypes := map[];
    }

    /** `stop`: stop any stream; a failure is only logged. */
    method Stop()
      modifies port
      ensures port.log == old(port.log) + [StreamStop]
      ensures unchanged(this)
    {
      var ignored := port.StreamStop();
    }

    /** `set_range`: an unknown range is refused before any call; otherwise
        one write of the table value, whose failure is re-raised. */
    method SetRange(channel: int, rangeName: string) returns (r: Outcome<Error>)
      modifies port
      ensures rangeName !in VoltageRanges ==>
        r == Fail(ValueError("Invalid voltage range: " + rangeName)) && port.log == old(port.log)
      ensures rangeName in VoltageRanges ==>
        && port.log == old(port.log) + [WriteName(RangeRegister(channel), VoltageRanges[rangeName])]
        && r == WrapWrite(port.device.writeName(old(port.log), RangeRegister(channel), VoltageRanges[rangeName]),
                          "Failed to set voltage range for channel " + IntToString(channel))
      ensures unchanged(this)
    {
      if rangeName !in VoltageRanges {
        return Fail(ValueError("Invalid voltage range: " + rangeName));
      }
      var written := port.WriteName(RangeRegister(channel), VoltageRanges[rangeName]);
      r := WrapWrite(written, "Failed to set voltage range for channel " + IntToString(channel));
    }

    /** `set_channel_name`: replaces one name, or refuses a position outside 0..15. */
    method SetChannelName(position: int, name: string) returns (r: Outcome<Error>)
      requires Valid()
      modifies this`channelNames
      ensures Valid()
      ensures 0 <= position < NumAnalogInputs ==>
        r == Pass && channelNames == old(channelNames)[position := name]
      ensures !(0 <= position < NumAnalogInputs) ==>
        && r == Fail(ValueError("Invalid position value. Must be between 0 and "
                                + IntToString(NumAnalogInputs - 1) + "."))
        && channelNames == old(channelNames)
    {
      if position < 0 || position >= NumAnalogInputs {
        return Fail(ValueError("Invalid position value. Must be between 0 and "
                               + IntToString(NumAnalogInputs - 1) + "."));
      }
      channelNames := channelNames[position := name];
      r := Pass;
    }

    /** `get_channel_names` */
    method GetChannelNames() returns (names: seq<string>)
      ensures names == channelNames
    {
      names := channelNames;
    }

    /** `configure_measurement_type`: validates before writing, writes the
        negative channel (199 for single-ended), and records the type only
        once the write has succeeded. */
    method ConfigureMeasurementType(channel: int, measurementType: string := "single-ended",
                                    differentialNegativeChannel: Option<int> := None)
      returns (r: Outcome<Error>)
      modifies port, this`channelTypes
      ensures NegativeChannelValue(measurementType, differentialNegativeChannel).Failure? ==>
        && r == Fail(NegativeChannelValue(measurementType, differentialNegativeChannel).error)
        && port.log == old(port.log)
        && channelTypes == old(channelTypes)
      ensures NegativeChannelValue(measurementType, differentialNegativeChannel).Success? ==>
        var value := NegativeChannelValue(measurementType, differentialNegativeChannel).value as real;
        && port.log == old(port.log) + [WriteName(NegativeChannelRegister(channel), value)]
        && r == WrapWrite(port.device.writeName(old(port.log), NegativeChannelRegister(channel), value),
                          "Failed to configure measurement type for channel " + IntToString(channel))
        && channelTypes == if r.Pass? then old(channelTypes)[channel := measurementType] else old(channelTypes)
    {
      var choice := NegativeChannelValue(measurementType, differentialNegativeChannel);
      if choice.Failure? {
        return Fail(choice.error);
      }
      var written := port.WriteName(NegativeChannelRegister(channel), choice.value as real);
      r := WrapWrite(written, "Failed to configure measurement type for channel " + IntToString(channel));
      if r.Pass? {
        channelTypes := channelTypes[channel := measurementType];
      }
    }

    /** `set_channel_rms`: stores the flag under the key as given. */
    method SetChannelRms(channel: Key, rmsEnabled: bool)
      modifies this`channelRmsFlags
      ensures channelRmsFlags == old(channelRmsFlags)[channel := rmsEnabled]
    {
      channelRmsFlags := channelRmsFlags[channel := rmsEnabled];
    }

    /** `read_samples`: visits AIN0..AIN15 in order, by the RMS path or a direct read. */
    method ReadSamples() returns (r: Result<map<string, Reading>, Error>)
      modifies port
      ensures Run(r, port.log) == Sampling.ReadSamples(port.device, sqrt, channelRmsFlags, old(port.log))
    {
      var channels := DefaultChannelNames(NumAnalogInputs);
      var results: map<string, Reading> := map[];
      var i := 0;
      while i < |channels|
        invariant i <= |channels| == NumAnalogInputs
        invariant ReadSamplesFrom(port.device, sqrt, channelRmsFlags, i, results, port.log)
               == Sampling.ReadSamples(port.device, sqrt, channelRmsFlags, old(port.log))
      {
        var channel := channels[i];
        ghost var step := ReadChannel(port.device, sqrt, channelRmsFlags, channel, port.log);
        if IsRmsChannel(channelRmsFlags, channel) {
          var values := StreamRmsSequential([channel]);
          if values.Failure? {
            return Failure(values.error);
          }
          assert step == Run(Success(RmsMap(values.value)), port.log);
          results := results[channel := RmsMap(values.value)];
        } else {
          var value := port.ReadName(channel);
          if value.Failure? {
            return Failure(Exception("Failed to read samples for " + channel, value.error));
          }
          assert step == Run(Success(Direct(value.value)), port.log);
          results := results[channel := Direct(value.value)];
        }
        i := i + 1;
      }
      r := Success(results);
    }

    /** `_stream_rms_sequential`: one burst per channel, strictly in turn. */
    method StreamRmsSequential(channels: seq<string>) returns (r: Result<map<string, real>, Error>)
      modifies port
      ensures Run(r, port.log) == Sampling.StreamRmsSequential(port.device, sqrt, channels, old(port.log))
    {
      var channelRmsValues: map<string, real> := map[];
      var i := 0;
      while i < |channels|
        invariant i <= |channels|
        invariant StreamRmsFrom(port.device, sqrt, channels, i, channelRmsValues, port.log)
               == Sampling.StreamRmsSequential(port.device, sqrt, channels, old(port.log))
      {
        var channel := channels[i];
        var address := port.NameToAddress(channel);
        if address.Failure? {
          return Failure(StreamFailure(channel, address.error));
        }
        var scanRateActual := port.StreamStart(NumSamples, 1, [address.value], ScanRate);
        if scanRateActual.Failure? {
          return Failure(StreamFailure(channel, scanRateActual.error));
        }
        var data := port.StreamRead();
        if data.Failure? {
          return Failure(StreamFailure(channel, data.error));
        }
        var stopped := port.StreamStop();
        if stopped.Fail? {
          return Failure(StreamFailure(channel, stopped.error));
        }
        var rms := CalculateRms(data.value, sqrt);
        if rms.Failure? {
          return Failure(rms.error);
        }
        channelRmsValues := channelRmsValues[channel := rms.value];
        i := i + 1;
      }
      r := Success(channelRmsValues);
    }
  }
}
