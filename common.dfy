/** What both drivers share: the exceptions they raise, the voltage-range
    table, the register names and the choice of negative channel. */
module Common {
  import opened Results
  import opened Names
  import opened Ljm

  /** The exceptions the drivers raise. */
  datatype Error =
    | ValueError(message: string)
      /** `raise Exception(f"{message}: {cause}")` inside `except ljm.LJMError as cause` */
    | Exception(message: string, cause: LJMError)
    | ZeroDivisionError

  /** What an operation returned or raised, with the port's log once it is done. */
  datatype Run<+T> = Run(result: Result<T, Error>, log: seq<Call>)

  /** `voltage_ranges`: the accepted range names and the value written for each. */
  const VoltageRanges: map<string, real> :=
    map["10V" := 10.0, "1V" := 1.0, "0.1V" := 0.1, "0.01V" := 0.01]

  /** The table accepts exactly the four range names, each for its own
      positive span in volts. */
  lemma VoltageRangeTable()
    ensures VoltageRanges.Keys == {"10V", "1V", "0.1V", "0.01V"}
    ensures VoltageRanges["10V"] == 10.0 && VoltageRanges["1V"] == 1.0
    ensures VoltageRanges["0.1V"] == 0.1 && VoltageRanges["0.01V"] == 0.01
    ensures forall name :: name in VoltageRanges ==> 0.0 < VoltageRanges[name]
  {
  }

  /** The negative-channel value that ties an input to ground. */
  const GroundSentinel: int := 199

  /** `f"AIN{channel}_RANGE"` */
  function RangeRegister(channel: int): string
  {
    AinName(channel) + "_RANGE"
  }

  /** `f"AIN{channel}_NEGATIVE_CH"` */
  function NegativeChannelRegister(channel: int): string
  {
    AinName(channel) + "_NEGATIVE_CH"
  }

  /** Each channel has its own range register. */
  lemma RangeRegisterInjective(a: int, b: int)
    ensures RangeRegister(a) == RangeRegister(b) <==> a == b
  {
    if RangeRegister(a) == RangeRegister(b) {
      assert AinName(a) == RangeRegister(a)[..|RangeRegister(a)| - 6];
      assert AinName(b) == RangeRegister(b)[..|RangeRegister(b)| - 6];
      AinNameInjective(a, b);
    }
  }

  /** Each channel has its own negative-channel register. */
  lemma NegativeChannelRegisterInjective(a: int, b: int)
    ensures NegativeChannelRegister(a) == NegativeChannelRegister(b) <==> a == b
  {
    if NegativeChannelRegister(a) == NegativeChannelRegister(b) {
      assert AinName(a) == NegativeChannelRegister(a)[..|NegativeChannelRegister(a)| - 12];
      assert AinName(b) == NegativeChannelRegister(b)[..|NegativeChannelRegister(b)| - 12];
      AinNameInjective(a, b);
    }
  }

  /** A port write's failure, re-raised as `Exception` with the given message. */
  function WrapWrite(answer: Outcome<LJMError>, message: string): (r: Outcome<Error>)
    ensures r.Pass? <==> answer.Pass?
    ensures answer.Fail? ==> r == Fail(Exception(message, answer.error))
  {
    match answer
    case Pass => Pass
    case Fail(e) => Fail(Exception(message, e))
  }

  /** The value `configure_measurement_type` writes to the negative-channel
      register, or the `ValueError` it raises before writing anything.
      The differential channel is written as given, without a range check. */
  function NegativeChannelValue(measurementType: string, differentialNegativeChannel: Option<int>)
    : (r: Result<int, Error>)
    ensures measurementType == "single-ended" ==> r == Success(GroundSentinel)
    ensures measurementType == "differential" ==>
      (r.Success? <==> differentialNegativeChannel.Some?) &&
      (r.Success? ==> r.value == differentialNegativeChannel.value)
    ensures r.Failure? <==>
      (measurementType != "single-ended" &&
       (measurementType != "differential" || differentialNegativeChannel.None?))
    ensures r.Failure? ==> r.error.ValueError?
  {
    if measurementType == "single-ended" then
      Success(GroundSentinel)
    else if measurementType == "differential" then
      match differentialNegativeChannel
      case None => Failure(ValueError("You must specify a valid negative channel for differential measurements."))
      case Some(n) => Success(n)
    else
      Failure(ValueError("Invalid measurement type. Use 'single-ended' or 'differential'."))
  }
}
