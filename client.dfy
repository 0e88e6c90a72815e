/** The older driver, `LabJackT7Driver` of LabjackClient.py: no in-memory
    configuration, eight inputs, and one batched read. */
module Client {
  import opened Results
  import opened Names
  import opened Ljm
  import opened Common

  /** `num_analog_inputs` of the older driver. */
  const NumAnalogInputs: nat := 8

  function Min(a: nat, b: nat): nat
  {
    if a <= b then a else b
  }

  /** `dict(zip(keys, values))`: pairs up to the shorter length, a later
      pair overriding an earlier one with the same key. */
  function Zip<K, V>(keys: seq<K>, values: seq<V>): (m: map<K, V>)
    ensures m.Keys == set i | 0 <= i < Min(|keys|, |values|) :: keys[i]
    decreases |keys|
  {
    var n := Min(|keys|, |values|);
    if n == 0 then map[] else Zip(keys[..n - 1], values[..n - 1])[keys[n - 1] := values[n - 1]]
  }

  /** A key not repeated later in the list maps to the value at its own position. */
  lemma {:induction false} ZipAt<K, V>(keys: seq<K>, values: seq<V>, i: nat)
    requires i < Min(|keys|, |values|)
    requires forall j :: i < j < Min(|keys|, |values|) ==> keys[j] != keys[i]
    ensures keys[i] in Zip(keys, values) && Zip(keys, values)[keys[i]] == values[i]
    decreases |keys|
  {
    var n := Min(|keys|, |values|);
    if i < n - 1 {
      ZipAt(keys[..n - 1], values[..n - 1], i);
    }
  }

  /** The channels `read_samples` asks for: those given, or AIN0..AIN7. */
  function RequestedChannels(channels: Option<seq<string>>): (r: seq<string>)
    ensures channels.Some? ==> r == channels.value
    ensures channels.None? ==> |r| == NumAnalogInputs && forall i :: 0 <= i < |r| ==> r[i] == AinName(i)
  {
    match channels
    case Some(names) => names
    case None => DefaultChannelNames(NumAnalogInputs)
  }

  lemma SingleDigitName(i: nat)
    requires i < 10
    ensures AinName(i) == ['A', 'I', 'N', Digit(i)]
  {
    assert NatToString(i) == [Digit(i)];
  }

  /** With no channels given, `read_samples` asks for AIN0..AIN7. */
  lemma DefaultRequest()
    ensures RequestedChannels(None) == ["AIN0", "AIN1", "AIN2", "AIN3", "AIN4", "AIN5", "AIN6", "AIN7"]
  {
    var names := RequestedChannels(None);
    var expected := ["AIN0", "AIN1", "AIN2", "AIN3", "AIN4", "AIN5", "AIN6", "AIN7"];
    forall i | 0 <= i < NumAnalogInputs
      ensures names[i] == expected[i]
    {
      SingleDigitName(i);
    }
  }

  /** A full answer to the default request maps each of the eight names to
      the value at its position, and holds nothing else. */
  lemma DefaultRequestPairs(values: seq<real>)
    requires |values| == NumAnalogInputs
    ensures var m := Zip(RequestedChannels(None), values);
      && |m| == NumAnalogInputs
      && forall i :: 0 <= i < NumAnalogInputs ==> AinName(i) in m && m[AinName(i)] == values[i]
  {
    var names := RequestedChannels(None);
    DefaultChannelNamesDistinct(NumAnalogInputs);
    var m := Zip(names, values);
    forall i | 0 <= i < NumAnalogInputs
      ensures AinName(i) in m && m[AinName(i)] == values[i]
    {
      assert names[i] == AinName(i);
      ZipAt(names, values, i);
    }
    assert |names| == NumAnalogInputs && Min(|names|, |values|) == |names|;
    assert m.Keys == set i | 0 <= i < |names| :: names[i];
    DistinctImage(names);
    assert |m| == |m.Keys|;
  }

  /** A list of distinct names has as many distinct elements as entries. */
  lemma {:induction false} DistinctImage(names: seq<string>)
    requires forall i, j :: 0 <= i < j < |names| ==> names[i] != names[j]
    ensures |set i | 0 <= i < |names| :: names[i]| == |names|
  {
    if names != [] {
      var init := names[..|names| - 1];
      DistinctImage(init);
      assert (set i | 0 <= i < |names| :: names[i])
          == (set i | 0 <= i < |init| :: init[i]) + {names[|names| - 1]};
    }
  }

  class LabJackT7Driver {
    /** `self.handle`: the device opened by `__init__`. */
    const port: Port

    constructor (port: Port)
      ensures this.port == port
    {
      this.port := port;
    }

    /** `set_range`: an unknown range is refused before any call; otherwise
        one write of the table value, whose failure is re-raised. */
    method SetRange(channel: int, rangeName: string) returns (r: Outcome<Error>)
      modifies port
      ensures rangeName !in VoltageRanges ==>
        r == Fail(ValueError("Invalid voltage range: " + rangeName)) && port.log == old(port.log)
      ensures rangeName in VoltageRanges ==>
        && port.log == old(port.log) + [WriteName(RangeRegister(channel), VoltageRanges[rangeName])]
        && r == WrapWrite(port.device.writeName(old(port.log), RangeRegister(channel), VoltageRanges[rangeName]),
                          "Failed to set voltage range")
    {
      if rangeName !in VoltageRanges {
        return Fail(ValueError("Invalid voltage range: " + rangeName));
      }
      var written := port.WriteName(RangeRegister(channel), VoltageRanges[rangeName]);
      r := WrapWrite(written, "Failed to set voltage range");
    }

    /** `configure_measurement_type`: validates before writing, then one
        write of the negative channel; nothing is recorded. */
    method ConfigureMeasurementType(channel: int, measurementType: string := "single-ended",
                                    differentialNegativeChannel: Option<int> := None)
      returns (r: Outcome<Error>)
      modifies port
      ensures NegativeChannelValue(measurementType, differentialNegativeChannel).Failure? ==>
        r == Fail(NegativeChannelValue(measurementType, differentialNegativeChannel).error) && port.log == old(port.log)
      ensures NegativeChannelValue(measurementType, differentialNegativeChannel).Success? ==>
        var value := NegativeChannelValue(measurementType, differentialNegativeChannel).value as real;
        && port.log == old(port.log) + [WriteName(NegativeChannelRegister(channel), value)]
        && r == WrapWrite(port.device.writeName(old(port.log), NegativeChannelRegister(channel), value),
                          "Failed to configure measurement type")
    {
      var choice := NegativeChannelValue(measurementType, differentialNegativeChannel);
      if choice.Failure? {
        return Fail(choice.error);
      }
      var written := port.WriteName(NegativeChannelRegister(channel), choice.value as real);
      r := WrapWrite(written, "Failed to configure measurement type");
    }

    /** `read_samples`: one batched read of the requested channels, paired
        up with the values returned. */
    method ReadSamples(channels: Option<seq<string>> := None) returns (r: Result<map<string, real>, Error>)
      modifies port
      ensures var names := RequestedChannels(channels);
        && port.log == old(port.log) + [ReadNames(|names|, names)]
        && r == match port.device.readNames(old(port.log), |names|, names)
                case Success(values) => Success(Zip(names, values))
                case Failure(e) => Failure(Exception("Failed to read analog inputs", e))
    {
      var names := RequestedChannels(channels);
      var values := port.ReadNames(|names|, names);
      match values
      case Success(vs) => r := Success(Zip(names, vs));
      case Failure(e) => r := Failure(Exception("Failed to read analog inputs", e));
    }

    /** `start`: does nothing. */
    method Start()
      ensures unchanged(port)
    {
    }

    /** `stop`: does nothing. */
    method Stop()
      ensures unchanged(port)
    {
    }
  }
}
