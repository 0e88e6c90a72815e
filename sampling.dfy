/** The sampling orchestrator of the package driver (`read_samples`) and its
    software RMS path (`_stream_rms_sequential`), as functions of the device
    and the port's log: each returns what the call returns or raises and the
    log once it is done. The driver's methods are proved equal to them. */
module Sampling {
  import opened Results
  import opened Names
  import opened Ljm
  import opened Common
  import opened Rms

  /** `num_analog_inputs` of the package driver. */
  const NumAnalogInputs: nat := 16
  /** Samples per burst (`num_samples`). */
  const NumSamples: int := 1000
  /** Requested scan rate in samples per second (`scan_rate`). */
  const ScanRate: real := 25000.0

  /** A key of `channel_rms_flags`: callers may store flags under strings or integers. */
  datatype Key = Str(s: string) | Int(i: int)

  /** A value of the result of `read_samples`: the direct reading, or, for an
      RMS channel, the map that `_stream_rms_sequential` returns. */
  datatype Reading = Direct(value: real) | RmsMap(values: map<string, real>)

  /** `channel_rms_flags.get(channel, False)` for the string key `channel`. */
  predicate IsRmsChannel(flags: map<Key, bool>, channel: string): (r: bool)
    ensures Str(channel) !in flags ==> !r
    ensures Str(channel) in flags ==> r == flags[Str(channel)]
  {
    Str(channel) in flags && flags[Str(channel)]
  }

  /** A flag stored under an integer key is never consulted: `read_samples`
      looks flags up under the string "AIN{i}" only. */
  lemma IntegerKeyIgnored(flags: map<Key, bool>, i: int, enabled: bool, channel: string)
    ensures IsRmsChannel(flags[Int(i) := enabled], channel) == IsRmsChannel(flags, channel)
  {
  }

  /** A flag stored under the channel's string name decides that channel's path. */
  lemma StringKeySelects(flags: map<Key, bool>, channel: string, enabled: bool)
    ensures IsRmsChannel(flags[Str(channel) := enabled], channel) == enabled
  {
  }

  /** The set of result keys after visiting the first `n` channels. */
  function ChannelSet(n: nat): set<string>
  {
    set i | 0 <= i < n :: AinName(i)
  }

  function StreamFailure(channel: string, cause: LJMError): Error
  {
    Exception("Failed to stream samples for " + channel, cause)
  }

  /** One iteration of `_stream_rms_sequential`: resolve the address, start a
      1000-sample single-address stream at 25000 samples per second, read it,
      stop it, then compute the RMS of the data. A failing call ends the
      iteration at once, so a failed start or read is never followed by a stop. */
  function Burst(d: Device, sqrt: real -> real, channel: string, log: seq<Call>): (out: Run<real>)
    ensures log <= out.log
    ensures IsSquareRoot(sqrt) && out.result.Success? ==> 0.0 <= out.result.value
  {
    var resolved := log + [NameToAddress(channel)];
    match d.nameToAddress(log, channel)
    case Failure(e) => Run(Failure(StreamFailure(channel, e)), resolved)
    case Success(address) =>
      var started := resolved + [StreamStart(NumSamples, 1, [address], ScanRate)];
      match d.streamStart(resolved, NumSamples, 1, [address], ScanRate)
      case Failure(e) => Run(Failure(StreamFailure(channel, e)), started)
      case Success(_) =>
        var read := started + [StreamRead];
        match d.streamRead(started)
        case Failure(e) => Run(Failure(StreamFailure(channel, e)), read)
        case Success(data) =>
          var stopped := read + [StreamStop];
          match d.streamStop(read)
          case Fail(e) => Run(Failure(StreamFailure(channel, e)), stopped)
          case Pass => Run(CalculateRms(data, sqrt), stopped)
  }

  /** `_stream_rms_sequential` from its `i`-th channel on, with `acc` the
      `channel_rms_values` gathered so far. */
  function StreamRmsFrom(d: Device, sqrt: real -> real, channels: seq<string>, i: nat,
                         acc: map<string, real>, log: seq<Call>): (out: Run<map<string, real>>)
    requires i <= |channels|
    ensures log <= out.log
    decreases |channels| - i
  {
    if i == |channels| then
      Run(Success(acc), log)
    else
      var step := Burst(d, sqrt, channels[i], log);
      match step.result
      case Failure(e) => Run(Failure(e), step.log)
      case Success(rms) => StreamRmsFrom(d, sqrt, channels, i + 1, acc[channels[i] := rms], step.log)
  }

  /** `_stream_rms_sequential(channels)` */
  function StreamRmsSequential(d: Device, sqrt: real -> real, channels: seq<string>, log: seq<Call>)
    : (out: Run<map<string, real>>)
    ensures log <= out.log
  {
    StreamRmsFrom(d, sqrt, channels, 0, map[], log)
  }

  /** The body of `read_samples`' loop for one channel: the RMS path for a
      flagged channel (its exceptions pass through unchanged), else one
      `eReadName` whose failure is re-raised as `Exception`. */
  function ReadChannel(d: Device, sqrt: real -> real, flags: map<Key, bool>, channel: string,
                       log: seq<Call>): (out: Run<Reading>)
    ensures log <= out.log
    ensures out.result.Success? ==> (out.result.value.RmsMap? <==> IsRmsChannel(flags, channel))
  {
    if IsRmsChannel(flags, channel) then
      var burst := StreamRmsSequential(d, sqrt, [channel], log);
      match burst.result
      case Failure(e) => Run(Failure(e), burst.log)
      case Success(values) => Run(Success(RmsMap(values)), burst.log)
    else
      var read := log + [ReadName(channel)];
      match d.readName(log, channel)
      case Failure(e) => Run(Failure(Exception("Failed to read samples for " + channel, e)), read)
      case Success(value) => Run(Success(Direct(value)), read)
  }

  /** `read_samples` from channel `i` on, with `acc` the results gathered so far. */
  function ReadSamplesFrom(d: Device, sqrt: real -> real, flags: map<Key, bool>, i: nat,
                           acc: map<string, Reading>, log: seq<Call>): (out: Run<map<string, Reading>>)
    requires i <= NumAnalogInputs
    ensures log <= out.log
    decreases NumAnalogInputs - i
  {
    if i == NumAnalogInputs then
      Run(Success(acc), log)
    else
      var channel := AinName(i);
      var step := ReadChannel(d, sqrt, flags, channel, log);
      match step.result
      case Failure(e) => Run(Failure(e), step.log)
      case Success(reading) => ReadSamplesFrom(d, sqrt, flags, i + 1, acc[channel := reading], step.log)
  }

  /** `_stream_rms_sequential([channel])`, as `read_samples` calls it: one burst,
      and on success the one-entry map from the channel to its RMS. */
  lemma StreamRmsSingle(d: Device, sqrt: real -> real, channel: string, log: seq<Call>)
    ensures var burst := Burst(d, sqrt, channel, log);
      StreamRmsSequential(d, sqrt, [channel], log) ==
        Run(match burst.result
            case Failure(e) => Failure(e)
            case Success(rms) => Success(map[channel := rms]),
            burst.log)
  {
    var burst := Burst(d, sqrt, channel, log);
    if burst.result.Success? {
      var rest := StreamRmsFrom(d, sqrt, [channel], 1, map[channel := burst.result.value], burst.log);
      assert rest == Run(Success(map[channel := burst.result.value]), burst.log);
    }
  }

  /** Call `p` of `log` is the read of a burst that began with the lookup of
      `channel`, and the RMS of the data that read answered is `value`. */
  ghost predicate BurstAt(d: Device, sqrt: real -> real, channel: string, value: real, log: seq<Call>, p: int)
  {
    && 2 <= p < |log|
    && log[p] == StreamRead
    && log[p - 2] == NameToAddress(channel)
    && d.streamRead(log[..p]).Success?
    && CalculateRms(d.streamRead(log[..p]).value, sqrt) == Success(value)
  }

  /** `value` is the RMS of the last burst for `channel` begun at or after
      position `from` of `log`: no later lookup of the channel follows it. */
  ghost predicate LastBurst(d: Device, sqrt: real -> real, channel: string, value: real, log: seq<Call>, from: nat)
  {
    exists p :: from + 2 <= p && BurstAt(d, sqrt, channel, value, log, p) && NameToAddress(channel) !in log[p - 1..]
  }

  /** Later calls do not change what an earlier burst read. */
  lemma BurstAtExtends(d: Device, sqrt: real -> real, channel: string, value: real,
                       log: seq<Call>, log': seq<Call>, p: int)
    requires log <= log' && BurstAt(d, sqrt, channel, value, log, p)
    ensures BurstAt(d, sqrt, channel, value, log', p)
  {
    assert log'[..p] == log[..p];
  }

  /** A successful burst's value is the RMS of the data its read returned,
      and the burst looks its channel up only at its start. */
  lemma BurstValue(d: Device, sqrt: real -> real, channel: string, log: seq<Call>)
    ensures var out := Burst(d, sqrt, channel, log);
      out.result.Success? ==>
        && BurstAt(d, sqrt, channel, out.result.value, out.log, |log| + 2)
        && NameToAddress(channel) !in out.log[|log| + 1..]
  {
    var out := Burst(d, sqrt, channel, log);
    var resolved := log + [NameToAddress(channel)];
    match d.nameToAddress(log, channel)
    case Failure(_) =>
    case Success(address) =>
      var start := StreamStart(NumSamples, 1, [address], ScanRate);
      var started := resolved + [start];
      match d.streamStart(resolved, NumSamples, 1, [address], ScanRate)
      case Failure(_) =>
      case Success(_) =>
        if d.streamRead(started).Success? && d.streamStop(started + [StreamRead]).Pass? {
          assert out.log == started + [StreamRead, StreamStop];
          assert out.log[..|log| + 2] == started;
          assert out.log[|log| + 1..] == [start, StreamRead, StreamStop];
        }
  }

  /** The lookup and the start of a burst for `channel` after `log` succeed,
      its read answers no data and its stop succeeds. */
  predicate EmptyBurstAnswers(d: Device, channel: string, log: seq<Call>)
  {
    && d.nameToAddress(log, channel).Success?
    && var resolved := log + [NameToAddress(channel)];
       var address := d.nameToAddress(log, channel).value;
       var started := resolved + [StreamStart(NumSamples, 1, [address], ScanRate)];
       && d.streamStart(resolved, NumSamples, 1, [address], ScanRate).Success?
       && d.streamRead(started) == Success([])
       && d.streamStop(started + [StreamRead]).Pass?
  }

  /** An empty burst raises `ZeroDivisionError` as is, not wrapped. */
  lemma EmptyBurst(d: Device, sqrt: real -> real, channel: string, log: seq<Call>)
    requires EmptyBurstAnswers(d, channel, log)
    ensures Burst(d, sqrt, channel, log).result == Failure(ZeroDivisionError)
  {
    assert CalculateRms([], sqrt) == Failure(ZeroDivisionError);
  }

  /** A burst stops its stream only after its lookup, start and read all succeeded. */
  lemma BurstStopsAfterSuccess(d: Device, sqrt: real -> real, channel: string, log: seq<Call>)
    ensures var out := Burst(d, sqrt, channel, log);
      StreamStop in out.log[|log|..] ==>
        && |out.log| == |log| + 4
        && forall p :: |log| <= p < |log| + 3 ==> d.FailureOf(out.log[..p], out.log[p]) == None
  {
    BurstOrder(d, sqrt, channel, log);
    BurstFailsFast(d, sqrt, channel, log);
  }

  /** The channels from position `i` on. */
  function Later(channels: seq<string>, i: nat): set<string>
  {
    set k | i <= k < |channels| :: channels[k]
  }

  /** A successful run from channel `i` on after `log` keeps the entries of
      `acc` for channels it does not take up, and maps each channel it takes
      up to the RMS of that channel's last burst. */
  ghost predicate Gathered(d: Device, sqrt: real -> real, channels: seq<string>, i: nat, acc: map<string, real>,
                           log: seq<Call>, out: Run<map<string, real>>)
  {
    out.result.Success? ==>
      && out.result.value.Keys == acc.Keys + Later(channels, i)
      && (forall c :: c in acc && c !in Later(channels, i) ==> out.result.value[c] == acc[c])
      && (forall c :: c in Later(channels, i) ==> LastBurst(d, sqrt, c, out.result.value[c], out.log, |log|))
  }

  lemma {:induction false} StreamRmsFromResult(d: Device, sqrt: real -> real, channels: seq<string>,
                                               i: nat, acc: map<string, real>, log: seq<Call>)
    requires i <= |channels|
    ensures Gathered(d, sqrt, channels, i, acc, log, StreamRmsFrom(d, sqrt, channels, i, acc, log))
    decreases |channels| - i, 1
  {
    var out := StreamRmsFrom(d, sqrt, channels, i, acc, log);
    if i == |channels| {
      assert Later(channels, i) == {};
      assert out == Run(Success(acc), log);
    } else {
      var step := Burst(d, sqrt, channels[i], log);
      if step.result.Success? {
        var acc' := acc[channels[i] := step.result.value];
        assert out == StreamRmsFrom(d, sqrt, channels, i + 1, acc', step.log);
        BurstValue(d, sqrt, channels[i], log);
        GatheredAfter(d, sqrt, channels, i, acc, step.result.value, log, step.log);
      } else {
        assert out == Run(Failure(step.result.error), step.log);
      }
    }
  }

  /** Channel `i`'s burst, issued from `log` to `stepLog`, gave `rms`; the
      channels after it continue from `stepLog`. */
  lemma {:induction false} GatheredAfter(d: Device, sqrt: real -> real, channels: seq<string>, i: nat,
                                         acc: map<string, real>, rms: real, log: seq<Call>, stepLog: seq<Call>)
    requires i < |channels| && log <= stepLog
    requires BurstAt(d, sqrt, channels[i], rms, stepLog, |log| + 2)
    requires NameToAddress(channels[i]) !in stepLog[|log| + 1..]
    ensures Gathered(d, sqrt, channels, i, acc, log,
                     StreamRmsFrom(d, sqrt, channels, i + 1, acc[channels[i] := rms], stepLog))
    decreases |channels| - i, 0
  {
    var acc' := acc[channels[i] := rms];
    var out := StreamRmsFrom(d, sqrt, channels, i + 1, acc', stepLog);
    StreamRmsFromResult(d, sqrt, channels, i + 1, acc', stepLog);
    LookedUpLater(d, sqrt, channels, i + 1, acc', stepLog, channels[i]);
    GatheredStep(d, sqrt, channels, i, acc, rms, log, stepLog, out);
  }

  /** Channel `i`'s entry and the entries the channels after it gathered make
      up what the channels from `i` on gathered. */
  lemma GatheredStep(d: Device, sqrt: real -> real, channels: seq<string>, i: nat,
                     acc: map<string, real>, rms: real, log: seq<Call>, stepLog: seq<Call>,
                     out: Run<map<string, real>>)
    requires i < |channels| && log <= stepLog <= out.log
    requires BurstAt(d, sqrt, channels[i], rms, stepLog, |log| + 2)
    requires NameToAddress(channels[i]) !in stepLog[|log| + 1..]
    requires channels[i] !in Later(channels, i + 1) ==> NameToAddress(channels[i]) !in out.log[|stepLog|..]
    requires Gathered(d, sqrt, channels, i + 1, acc[channels[i] := rms], stepLog, out)
    ensures Gathered(d, sqrt, channels, i, acc, log, out)
  {
    assert Later(channels, i) == {channels[i]} + Later(channels, i + 1);
    if out.result.Success? {
      var m := out.result.value;
      forall c | c in Later(channels, i)
        ensures LastBurst(d, sqrt, c, m[c], out.log, |log|)
      {
        if c in Later(channels, i + 1) {
          LastBurstEarlier(d, sqrt, c, m[c], out.log, |stepLog|, |log|);
        } else {
          LastBurstKept(d, sqrt, c, rms, log, stepLog, out.log);
        }
      }
    }
  }

  /** The last burst from one position on is the last from any earlier one. */
  lemma LastBurstEarlier(d: Device, sqrt: real -> real, channel: string, value: real, log: seq<Call>,
                         from: nat, from': nat)
    requires from' <= from && LastBurst(d, sqrt, channel, value, log, from)
    ensures LastBurst(d, sqrt, channel, value, log, from')
  {
    var p :| from + 2 <= p && BurstAt(d, sqrt, channel, value, log, p) && NameToAddress(channel) !in log[p - 1..];
    assert from' + 2 <= p;
  }

  /** A burst stays the channel's last when the calls after it look the channel up no more. */
  lemma LastBurstKept(d: Device, sqrt: real -> real, channel: string, value: real,
                      log: seq<Call>, stepLog: seq<Call>, outLog: seq<Call>)
    requires log <= stepLog <= outLog
    requires BurstAt(d, sqrt, channel, value, stepLog, |log| + 2)
    requires NameToAddress(channel) !in stepLog[|log| + 1..]
    requires NameToAddress(channel) !in outLog[|stepLog|..]
    ensures LastBurst(d, sqrt, channel, value, outLog, |log|)
  {
    BurstAtExtends(d, sqrt, channel, value, stepLog, outLog, |log| + 2);
    assert outLog[|log| + 1..] == stepLog[|log| + 1..] + outLog[|stepLog|..];
    assert NameToAddress(channel) !in outLog[|log| + 2 - 1..];
  }

  /** A call that is among the calls issued is among those that begin a channel
      when it is an address lookup. */
  lemma {:induction false} LookupVisited(calls: seq<Call>, call: Call)
    requires call.NameToAddress? && call in calls
    ensures call in Visits(calls)
  {
    assert Visits(calls) == Opening(calls[0]) + Visits(calls[1..]);
    if calls[0] != call {
      assert call in calls[1..];
      LookupVisited(calls[1..], call);
    }
  }

  /** A run from channel `i` on looks up only the channels from `i` on. */
  lemma LookedUpLater(d: Device, sqrt: real -> real, channels: seq<string>, i: nat,
                      acc: map<string, real>, log: seq<Call>, c: string)
    requires i <= |channels|
    ensures var out := StreamRmsFrom(d, sqrt, channels, i, acc, log);
      NameToAddress(c) in out.log[|log|..] ==> c in Later(channels, i)
  {
    var out := StreamRmsFrom(d, sqrt, channels, i, acc, log);
    var issued := out.log[|log|..];
    if NameToAddress(c) in issued {
      StreamRmsFromOrder(d, sqrt, channels, i, acc, log);
      LookupVisited(issued, NameToAddress(c));
      var k :| 0 <= k < |Visits(issued)| && Visits(issued)[k] == NameToAddress(c);
      assert Visits(issued)[k] == Lookups(channels)[i + k];
      assert channels[i + k] in Later(channels, i);
    }
  }

  /** `_stream_rms_sequential` returns one entry per channel it was given,
      each the RMS of the data of that channel's last burst in this call,
      and so non-negative. */
  lemma StreamRmsResult(d: Device, sqrt: real -> real, channels: seq<string>, log: seq<Call>)
    ensures var out := StreamRmsSequential(d, sqrt, channels, log);
      out.result.Success? ==>
        && out.result.value.Keys == set c | c in channels
        && (forall c :: c in out.result.value ==> LastBurst(d, sqrt, c, out.result.value[c], out.log, |log|))
        && (IsSquareRoot(sqrt) ==> forall c :: c in out.result.value ==> 0.0 <= out.result.value[c])
  {
    var out := StreamRmsSequential(d, sqrt, channels, log);
    StreamRmsFromResult(d, sqrt, channels, 0, map[], log);
    assert Later(channels, 0) == set c | c in channels;
    if out.result.Success? && IsSquareRoot(sqrt) {
      forall c | c in out.result.value
        ensures 0.0 <= out.result.value[c]
      {
        var p :| |log| + 2 <= p && BurstAt(d, sqrt, c, out.result.value[c], out.log, p)
                 && NameToAddress(c) !in out.log[p - 1..];
      }
    }
  }

  /** An empty burst on a flagged AIN0 surfaces from `read_samples` as the
      bare `ZeroDivisionError`. */
  lemma EmptyBurstRaised(d: Device, sqrt: real -> real, flags: map<Key, bool>, log: seq<Call>)
    requires IsRmsChannel(flags, AinName(0))
    requires EmptyBurstAnswers(d, AinName(0), log)
    ensures ReadSamples(d, sqrt, flags, log).result == Failure(ZeroDivisionError)
  {
    EmptyBurst(d, sqrt, AinName(0), log);
    StreamRmsSingle(d, sqrt, AinName(0), log);
  }

  /** `read_samples()` */
  function ReadSamples(d: Device, sqrt: real -> real, flags: map<Key, bool>, log: seq<Call>)
    : (out: Run<map<string, Reading>>)
    ensures log <= out.log
  {
    ReadSamplesFrom(d, sqrt, flags, 0, map[], log)
  }

  // ---------------------------------------------------------------------------
  // Failures surface at once

  /** The port failure an outcome re-raises, if it is one. */
  function RaisedCause<T>(r: Result<T, Error>): Option<LJMError>
  {
    match r
    case Failure(Exception(_, cause)) => Some(cause)
    case _ => None
  }

  /** Every call issued after `log` succeeded except possibly the last, and the
      last failed exactly when the outcome re-raises that failure: no port
      failure is swallowed and none is followed by a further call. */
  ghost predicate FailsFast<T>(d: Device, log: seq<Call>, out: Run<T>)
  {
    && log <= out.log
    && (forall p :: |log| <= p < |out.log| - 1 ==> d.FailureOf(out.log[..p], out.log[p]) == None)
    && if |log| < |out.log| then
         d.FailureOf(out.log[..|out.log| - 1], out.log[|out.log| - 1]) == RaisedCause(out.result)
       else
         RaisedCause(out.result) == None
  }

  /** Fail-fast runs that follow a successful fail-fast run make one. */
  lemma FailsFastThen<T, U>(d: Device, log: seq<Call>, first: Run<T>, rest: Run<U>)
    requires FailsFast(d, log, first) && first.result.Success?
    requires FailsFast(d, first.log, rest)
    ensures FailsFast(d, log, rest)
  {
    var n := |first.log|;
    forall p | |log| <= p < |rest.log| - 1
      ensures d.FailureOf(rest.log[..p], rest.log[p]) == None
    {
      if p < n {
        assert rest.log[..p] == first.log[..p] && rest.log[p] == first.log[p];
      }
    }
    if |log| < |rest.log| && |rest.log| == n {
      assert rest.log == first.log;
    }
  }

  /** A run that ends as a failed step did, raising the same error. */
  lemma FailsFastPassOn<T, U>(d: Device, log: seq<Call>, step: Run<T>, out: Run<U>)
    requires FailsFast(d, log, step) && step.result.Failure?
    requires out == Run(Failure(step.result.error), step.log)
    ensures FailsFast(d, log, out)
  {
    assert RaisedCause(out.result) == RaisedCause(step.result);
  }

  /** A run that ends as a successful step did, with a value of its own. */
  lemma FailsFastSuccessOn<T, U>(d: Device, log: seq<Call>, step: Run<T>, out: Run<U>)
    requires FailsFast(d, log, step) && step.result.Success?
    requires out.result.Success? && out.log == step.log
    ensures FailsFast(d, log, out)
  {
    assert RaisedCause(out.result) == RaisedCause(step.result);
  }

  /** Every call issued after `log` up to the end of `calls` succeeded. */
  ghost predicate AllSucceeded(d: Device, log: seq<Call>, calls: seq<Call>)
  {
    && log <= calls
    && forall p :: |log| <= p < |calls| ==> d.FailureOf(calls[..p], calls[p]) == None
  }

  lemma AllSucceededSnoc(d: Device, log: seq<Call>, calls: seq<Call>, call: Call)
    requires AllSucceeded(d, log, calls) && d.FailureOf(calls, call) == None
    ensures AllSucceeded(d, log, calls + [call])
  {
    forall p | |log| <= p < |calls| + 1
      ensures d.FailureOf((calls + [call])[..p], (calls + [call])[p]) == None
    {
      if p < |calls| {
        assert (calls + [call])[..p] == calls[..p];
      } else {
        assert (calls + [call])[..p] == calls;
      }
    }
  }

  /** A run whose calls all succeeded but the last one, which decided the outcome. */
  lemma FailsFastSnoc<T>(d: Device, log: seq<Call>, calls: seq<Call>, call: Call, r: Result<T, Error>)
    requires AllSucceeded(d, log, calls) && d.FailureOf(calls, call) == RaisedCause(r)
    ensures FailsFast(d, log, Run(r, calls + [call]))
  {
    var out := calls + [call];
    assert out[..|out| - 1] == calls;
    forall p | |log| <= p < |out| - 1
      ensures d.FailureOf(out[..p], out[p]) == None
    {
      assert out[..p] == calls[..p];
    }
  }

  lemma BurstFailsFast(d: Device, sqrt: real -> real, channel: string, log: seq<Call>)
    ensures FailsFast(d, log, Burst(d, sqrt, channel, log))
  {
    assert AllSucceeded(d, log, log);
    var resolved := log + [NameToAddress(channel)];
    match d.nameToAddress(log, channel)
    case Failure(e) =>
      FailsFastSnoc(d, log, log, NameToAddress(channel), Burst(d, sqrt, channel, log).result);
    case Success(address) =>
      AllSucceededSnoc(d, log, log, NameToAddress(channel));
      var start := StreamStart(NumSamples, 1, [address], ScanRate);
      var started := resolved + [start];
      match d.streamStart(resolved, NumSamples, 1, [address], ScanRate)
      case Failure(e) =>
        FailsFastSnoc(d, log, resolved, start, Burst(d, sqrt, channel, log).result);
      case Success(_) =>
        AllSucceededSnoc(d, log, resolved, start);
        var read := started + [StreamRead];
        match d.streamRead(started)
        case Failure(e) =>
          FailsFastSnoc(d, log, started, StreamRead, Burst(d, sqrt, channel, log).result);
        case Success(data) =>
          AllSucceededSnoc(d, log, started, StreamRead);
          FailsFastSnoc(d, log, read, StreamStop, Burst(d, sqrt, channel, log).result);
  }

  lemma {:induction false} StreamRmsFromFailsFast(d: Device, sqrt: real -> real, channels: seq<string>,
                                                  i: nat, acc: map<string, real>, log: seq<Call>)
    requires i <= |channels|
    ensures FailsFast(d, log, StreamRmsFrom(d, sqrt, channels, i, acc, log))
    decreases |channels| - i, 1
  {
    if i < |channels| {
      var step := Burst(d, sqrt, channels[i], log);
      BurstFailsFast(d, sqrt, channels[i], log);
      if step.result.Success? {
        var acc' := acc[channels[i] := step.result.value];
        assert StreamRmsFrom(d, sqrt, channels, i, acc, log) == StreamRmsFrom(d, sqrt, channels, i + 1, acc', step.log);
        StreamRmsFailsFastAfter(d, sqrt, channels, i, acc', log, step);
      } else {
        assert StreamRmsFrom(d, sqrt, channels, i, acc, log) == Run(Failure(step.result.error), step.log);
        FailsFastPassOn(d, log, step, StreamRmsFrom(d, sqrt, channels, i, acc, log));
      }
    }
  }

  lemma {:induction false} StreamRmsFailsFastAfter<T>(d: Device, sqrt: real -> real, channels: seq<string>,
                                                      i: nat, acc: map<string, real>, log: seq<Call>, step: Run<T>)
    requires i < |channels|
    requires FailsFast(d, log, step) && step.result.Success?
    ensures FailsFast(d, log, StreamRmsFrom(d, sqrt, channels, i + 1, acc, step.log))
    decreases |channels| - i, 0
  {
    StreamRmsFromFailsFast(d, sqrt, channels, i + 1, acc, step.log);
    FailsFastThen(d, log, step, StreamRmsFrom(d, sqrt, channels, i + 1, acc, step.log));
  }

  lemma ReadChannelFailsFast(d: Device, sqrt: real -> real, flags: map<Key, bool>, channel: string, log: seq<Call>)
    ensures FailsFast(d, log, ReadChannel(d, sqrt, flags, channel, log))
  {
    var out := ReadChannel(d, sqrt, flags, channel, log);
    if IsRmsChannel(flags, channel) {
      var burst := StreamRmsSequential(d, sqrt, [channel], log);
      StreamRmsFromFailsFast(d, sqrt, [channel], 0, map[], log);
      if burst.result.Success? {
        assert out == Run(Success(RmsMap(burst.result.value)), burst.log);
        FailsFastSuccessOn(d, log, burst, out);
      } else {
        assert out == Run(Failure(burst.result.error), burst.log);
        FailsFastPassOn(d, log, burst, out);
      }
    } else {
      assert AllSucceeded(d, log, log);
      FailsFastSnoc(d, log, log, ReadName(channel), out.result);
    }
  }

  lemma {:induction false} ReadSamplesFromFailsFast(d: Device, sqrt: real -> real, flags: map<Key, bool>,
                                                    i: nat, acc: map<string, Reading>, log: seq<Call>)
    requires i <= NumAnalogInputs
    ensures FailsFast(d, log, ReadSamplesFrom(d, sqrt, flags, i, acc, log))
    decreases NumAnalogInputs - i, 1
  {
    if i < NumAnalogInputs {
      var step := ReadChannel(d, sqrt, flags, AinName(i), log);
      ReadChannelFailsFast(d, sqrt, flags, AinName(i), log);
      if step.result.Success? {
        var acc' := acc[AinName(i) := step.result.value];
        assert ReadSamplesFrom(d, sqrt, flags, i, acc, log) == ReadSamplesFrom(d, sqrt, flags, i + 1, acc', step.log);
        ReadSamplesFailsFastAfter(d, sqrt, flags, i, acc', log, step);
      } else {
        assert ReadSamplesFrom(d, sqrt, flags, i, acc, log) == Run(Failure(step.result.error), step.log);
        FailsFastPassOn(d, log, step, ReadSamplesFrom(d, sqrt, flags, i, acc, log));
      }
    }
  }

  lemma {:induction false} ReadSamplesFailsFastAfter<T>(d: Device, sqrt: real -> real, flags: map<Key, bool>,
                                                        i: nat, acc: map<string, Reading>, log: seq<Call>, step: Run<T>)
    requires i < NumAnalogInputs
    requires FailsFast(d, log, step) && step.result.Success?
    ensures FailsFast(d, log, ReadSamplesFrom(d, sqrt, flags, i + 1, acc, step.log))
    decreases NumAnalogInputs - i, 0
  {
    ReadSamplesFromFailsFast(d, sqrt, flags, i + 1, acc, step.log);
    FailsFastThen(d, log, step, ReadSamplesFrom(d, sqrt, flags, i + 1, acc, step.log));
  }

  /** `read_samples` stops at the first failing port call and re-raises it;
      when it returns, every call it issued succeeded. */
  lemma ReadSamplesFailsFast(d: Device, sqrt: real -> real, flags: map<Key, bool>, log: seq<Call>)
    ensures FailsFast(d, log, ReadSamples(d, sqrt, flags, log))
  {
    ReadSamplesFromFailsFast(d, sqrt, flags, 0, map[], log);
  }

  // ---------------------------------------------------------------------------
  // The order of the calls

  /** The calls of a burst, in the order they are issued: `Burst` issues a
      prefix of these. */
  lemma BurstOrder(d: Device, sqrt: real -> real, channel: string, log: seq<Call>)
    ensures var out := Burst(d, sqrt, channel, log);
            var issued := out.log[|log|..];
      && 1 <= |issued| <= 4
      && issued[0] == NameToAddress(channel)
      && (2 <= |issued| ==>
            d.nameToAddress(log, channel).Success? &&
            issued[1] == StreamStart(NumSamples, 1, [d.nameToAddress(log, channel).value], ScanRate))
      && (3 <= |issued| ==> issued[2] == StreamRead)
      && (StreamStop in issued <==> |issued| == 4)
      && (|issued| == 4 ==> issued[3] == StreamStop)
      && (out.result.Success? ==> |issued| == 4)
  {
    var resolved := log + [NameToAddress(channel)];
    match d.nameToAddress(log, channel)
    case Failure(_) =>
      assert Burst(d, sqrt, channel, log).log[|log|..] == [NameToAddress(channel)];
    case Success(address) =>
      var start := StreamStart(NumSamples, 1, [address], ScanRate);
      var started := resolved + [start];
      match d.streamStart(resolved, NumSamples, 1, [address], ScanRate)
      case Failure(_) =>
        assert Burst(d, sqrt, channel, log).log[|log|..] == [NameToAddress(channel), start];
      case Success(_) =>
        match d.streamRead(started)
        case Failure(_) =>
          assert Burst(d, sqrt, channel, log).log[|log|..] == [NameToAddress(channel), start, StreamRead];
        case Success(_) =>
          assert Burst(d, sqrt, channel, log).log[|log|..] == [NameToAddress(channel), start, StreamRead, StreamStop];
  }

  /** The calls that begin the handling of a channel: its direct read or the
      address lookup that starts its burst. */
  function Visits(calls: seq<Call>): seq<Call>
  {
    if calls == [] then [] else Opening(calls[0]) + Visits(calls[1..])
  }

  function Opening(call: Call): seq<Call>
  {
    if call.ReadName? || call.NameToAddress? then [call] else []
  }

  lemma {:induction false} VisitsAppend(a: seq<Call>, b: seq<Call>)
    ensures Visits(a + b) == Visits(a) + Visits(b)
  {
    if a == [] {
      assert a + b == b;
    } else {
      var ab := a + b;
      assert ab != [] && ab[0] == a[0];
      assert ab[1..] == a[1..] + b;
      VisitsAppend(a[1..], b);
      calc {
        Visits(ab);
        Opening(a[0]) + Visits(a[1..] + b);
        Opening(a[0]) + (Visits(a[1..]) + Visits(b));
        { SeqAssociative(Opening(a[0]), Visits(a[1..]), Visits(b)); }
        (Opening(a[0]) + Visits(a[1..])) + Visits(b);
      }
    }
  }

  /** Regrouping a concatenation; a lemma of its own so that `VisitsAppend`
      stays small for the solver. */
  lemma SeqAssociative(x: seq<Call>, y: seq<Call>, z: seq<Call>)
    ensures x + (y + z) == (x + y) + z
  {
  }

  lemma {:induction false} VisitsNone(calls: seq<Call>)
    requires forall k :: 0 <= k < |calls| ==> calls[k].StreamStart? || calls[k].StreamRead? || calls[k].StreamStop?
    ensures Visits(calls) == []
  {
    if calls != [] {
      VisitsNone(calls[1..]);
    }
  }

  /** How `read_samples` begins channel `i`: by a stream address lookup if its
      string key is flagged, else by a direct read. */
  function Visit(flags: map<Key, bool>, i: int): Call
  {
    if IsRmsChannel(flags, AinName(i)) then NameToAddress(AinName(i)) else ReadName(AinName(i))
  }

  /** An address lookup followed only by stream calls begins one channel. */
  lemma LookupVisits(channel: string, tail: seq<Call>)
    requires forall k :: 0 <= k < |tail| ==> tail[k].StreamStart? || tail[k].StreamRead? || tail[k].StreamStop?
    ensures Visits([NameToAddress(channel)] + tail) == [NameToAddress(channel)]
  {
    VisitsNone(tail);
    VisitsAppend([NameToAddress(channel)], tail);
  }

  /** A burst begins its channel with the address lookup and begins no other. */
  lemma BurstVisits(d: Device, sqrt: real -> real, channel: string, log: seq<Call>)
    ensures Visits(Burst(d, sqrt, channel, log).log[|log|..]) == [NameToAddress(channel)]
  {
    var resolved := log + [NameToAddress(channel)];
    match d.nameToAddress(log, channel)
    case Failure(_) =>
      assert Burst(d, sqrt, channel, log).log[|log|..] == [NameToAddress(channel)] + [];
      LookupVisits(channel, []);
    case Success(address) =>
      var start := StreamStart(NumSamples, 1, [address], ScanRate);
      var started := resolved + [start];
      match d.streamStart(resolved, NumSamples, 1, [address], ScanRate)
      case Failure(_) =>
        assert Burst(d, sqrt, channel, log).log[|log|..] == [NameToAddress(channel)] + [start];
        LookupVisits(channel, [start]);
      case Success(_) =>
        match d.streamRead(started)
        case Failure(_) =>
          assert Burst(d, sqrt, channel, log).log[|log|..] == [NameToAddress(channel)] + [start, StreamRead];
          LookupVisits(channel, [start, StreamRead]);
        case Success(_) =>
          assert Burst(d, sqrt, channel, log).log[|log|..] == [NameToAddress(channel)] + [start, StreamRead, StreamStop];
          LookupVisits(channel, [start, StreamRead, StreamStop]);
  }

  lemma ReadChannelVisits(d: Device, sqrt: real -> real, flags: map<Key, bool>, channel: string, log: seq<Call>)
    ensures var out := ReadChannel(d, sqrt, flags, channel, log);
      Visits(out.log[|log|..]) ==
        [if IsRmsChannel(flags, channel) then NameToAddress(channel) else ReadName(channel)]
  {
    var out := ReadChannel(d, sqrt, flags, channel, log);
    if IsRmsChannel(flags, channel) {
      StreamRmsSingle(d, sqrt, channel, log);
      BurstVisits(d, sqrt, channel, log);
    } else {
      assert out.log[|log|..] == [ReadName(channel)];
    }
  }

  /** A suffix splits at an intermediate prefix; a lemma of its own so that
      its callers stay small for the solver. */
  lemma SuffixSplit(a: seq<Call>, b: seq<Call>, c: seq<Call>)
    requires a <= b <= c
    ensures c[|a|..] == b[|a|..] + c[|b|..]
  {
  }

  /** The calls that begin each channel of `read_samples`, in order. */
  function Plan(flags: map<Key, bool>): (plan: seq<Call>)
    ensures |plan| == NumAnalogInputs
  {
    seq(NumAnalogInputs, j => Visit(flags, j))
  }

  /** The calls that begin each burst of `_stream_rms_sequential`, in order. */
  function Lookups(channels: seq<string>): (plan: seq<Call>)
    ensures |plan| == |channels|
  {
    seq(|channels|, j requires 0 <= j < |channels| => NameToAddress(channels[j]))
  }

  /** `visits` follows `plan` from its `i`-th entry on, and stops at its end. */
  predicate VisitsFrom(plan: seq<Call>, i: nat, visits: seq<Call>)
  {
    && i + |visits| <= |plan|
    && forall k :: 0 <= k < |visits| ==> visits[k] == plan[i + k]
  }

  lemma VisitsShift(plan: seq<Call>, i: nat, later: seq<Call>)
    requires i < |plan|
    requires VisitsFrom(plan, i + 1, later)
    ensures VisitsFrom(plan, i, [plan[i]] + later)
  {
    forall k | 0 <= k < 1 + |later|
      ensures ([plan[i]] + later)[k] == plan[i + k]
    {
      if 0 < k {
        assert ([plan[i]] + later)[k] == later[k - 1];
      }
    }
  }

  /** The calls `out` issued after `log` follow `plan` from entry `i` on, to
      its end when it succeeds. */
  ghost predicate OrderedFrom<T>(plan: seq<Call>, i: nat, log: seq<Call>, out: Run<T>)
  {
    && log <= out.log
    && VisitsFrom(plan, i, Visits(out.log[|log|..]))
    && (out.result.Success? ==> i + |Visits(out.log[|log|..])| == |plan|)
  }

  /** Entry `i` of the plan handled, with the calls from `log` to `stepLog`;
      the entries after it continue from there. */
  lemma OrderStep(plan: seq<Call>, i: nat, log: seq<Call>, stepLog: seq<Call>, restLog: seq<Call>)
    requires i < |plan|
    requires log <= stepLog <= restLog
    requires Visits(stepLog[|log|..]) == [plan[i]]
    requires VisitsFrom(plan, i + 1, Visits(restLog[|stepLog|..]))
    ensures VisitsFrom(plan, i, Visits(restLog[|log|..]))
    ensures |Visits(restLog[|log|..])| == 1 + |Visits(restLog[|stepLog|..])|
  {
    SuffixSplit(log, stepLog, restLog);
    VisitsAppend(stepLog[|log|..], restLog[|stepLog|..]);
    VisitsShift(plan, i, Visits(restLog[|stepLog|..]));
  }

  /** A run that failed while handling entry `i` of the plan; a lemma of its
      own so that the order proofs stay small for the solver. */
  lemma OrderStopped<T>(plan: seq<Call>, i: nat, log: seq<Call>, out: Run<T>)
    requires i < |plan|
    requires log <= out.log && Visits(out.log[|log|..]) == [plan[i]]
    requires out.result.Failure?
    ensures OrderedFrom(plan, i, log, out)
  {
  }

  lemma {:induction false} StreamRmsFromOrder(d: Device, sqrt: real -> real, channels: seq<string>,
                                              i: nat, acc: map<string, real>, log: seq<Call>)
    requires i <= |channels|
    ensures OrderedFrom(Lookups(channels), i, log, StreamRmsFrom(d, sqrt, channels, i, acc, log))
    decreases |channels| - i, 1
  {
    var out := StreamRmsFrom(d, sqrt, channels, i, acc, log);
    if i == |channels| {
      assert out.log[|log|..] == [];
    } else {
      var step := Burst(d, sqrt, channels[i], log);
      BurstVisits(d, sqrt, channels[i], log);
      if step.result.Success? {
        var acc' := acc[channels[i] := step.result.value];
        assert out == StreamRmsFrom(d, sqrt, channels, i + 1, acc', step.log);
        StreamRmsOrderAfter(d, sqrt, channels, i, acc', log, step.log);
      } else {
        assert out == Run(Failure(step.result.error), step.log);
        OrderStopped(Lookups(channels), i, log, out);
      }
    }
  }

  lemma {:induction false} StreamRmsOrderAfter(d: Device, sqrt: real -> real, channels: seq<string>,
                                               i: nat, acc: map<string, real>, log: seq<Call>, stepLog: seq<Call>)
    requires i < |channels|
    requires log <= stepLog && Visits(stepLog[|log|..]) == [NameToAddress(channels[i])]
    ensures OrderedFrom(Lookups(channels), i, log, StreamRmsFrom(d, sqrt, channels, i + 1, acc, stepLog))
    decreases |channels| - i, 0
  {
    var rest := StreamRmsFrom(d, sqrt, channels, i + 1, acc, stepLog);
    StreamRmsFromOrder(d, sqrt, channels, i + 1, acc, stepLog);
    OrderStep(Lookups(channels), i, log, stepLog, rest.log);
  }

  /** `_stream_rms_sequential` takes up its channels in the order given, each
      by a burst that starts with the channel's address lookup, and takes up
      all of them when it returns. */
  lemma StreamRmsOrder(d: Device, sqrt: real -> real, channels: seq<string>, log: seq<Call>)
    ensures var out := StreamRmsSequential(d, sqrt, channels, log);
            var visits := Visits(out.log[|log|..]);
      && |visits| <= |channels|
      && (forall k :: 0 <= k < |visits| ==> visits[k] == NameToAddress(channels[k]))
      && (out.result.Success? ==> |visits| == |channels|)
  {
    StreamRmsFromOrder(d, sqrt, channels, 0, map[], log);
    var out := StreamRmsSequential(d, sqrt, channels, log);
    var visits := Visits(out.log[|log|..]);
    assert VisitsFrom(Lookups(channels), 0, visits);
    forall k | 0 <= k < |visits|
      ensures visits[k] == NameToAddress(channels[k])
    {
      assert visits[k] == Lookups(channels)[0 + k];
    }
  }

  lemma {:induction false} ReadSamplesFromOrder(d: Device, sqrt: real -> real, flags: map<Key, bool>,
                                                i: nat, acc: map<string, Reading>, log: seq<Call>)
    requires i <= NumAnalogInputs
    ensures OrderedFrom(Plan(flags), i, log, ReadSamplesFrom(d, sqrt, flags, i, acc, log))
    decreases NumAnalogInputs - i, 1
  {
    var out := ReadSamplesFrom(d, sqrt, flags, i, acc, log);
    if i == NumAnalogInputs {
      assert out.log[|log|..] == [];
    } else {
      var step := ReadChannel(d, sqrt, flags, AinName(i), log);
      ReadChannelVisits(d, sqrt, flags, AinName(i), log);
      if step.result.Success? {
        var acc' := acc[AinName(i) := step.result.value];
        assert out == ReadSamplesFrom(d, sqrt, flags, i + 1, acc', step.log);
        OrderAfter(d, sqrt, flags, i, acc', log, step.log);
      } else {
        assert out == Run(Failure(step.result.error), step.log);
        OrderStopped(Plan(flags), i, log, out);
      }
    }
  }

  lemma {:induction false} OrderAfter(d: Device, sqrt: real -> real, flags: map<Key, bool>,
                                      i: nat, acc: map<string, Reading>, log: seq<Call>, stepLog: seq<Call>)
    requires i < NumAnalogInputs
    requires log <= stepLog && Visits(stepLog[|log|..]) == [Visit(flags, i)]
    ensures OrderedFrom(Plan(flags), i, log, ReadSamplesFrom(d, sqrt, flags, i + 1, acc, stepLog))
    decreases NumAnalogInputs - i, 0
  {
    var rest := ReadSamplesFrom(d, sqrt, flags, i + 1, acc, stepLog);
    ReadSamplesFromOrder(d, sqrt, flags, i + 1, acc, stepLog);
    OrderStep(Plan(flags), i, log, stepLog, rest.log);
  }

  /** `read_samples` takes up AIN0, AIN1, ... in order, each by the call its
      flag selects, and takes up all sixteen when it returns. */
  lemma ReadSamplesOrder(d: Device, sqrt: real -> real, flags: map<Key, bool>, log: seq<Call>)
    ensures var out := ReadSamples(d, sqrt, flags, log);
            var visits := Visits(out.log[|log|..]);
      && |visits| <= NumAnalogInputs
      && (forall k :: 0 <= k < |visits| ==> visits[k] == Visit(flags, k))
      && (out.result.Success? ==> |visits| == NumAnalogInputs)
  {
    ReadSamplesFromOrder(d, sqrt, flags, 0, map[], log);
    var out := ReadSamples(d, sqrt, flags, log);
    var visits := Visits(out.log[|log|..]);
    assert VisitsFrom(Plan(flags), 0, visits);
    forall k | 0 <= k < |visits|
      ensures visits[k] == Visit(flags, k)
    {
      assert visits[k] == Plan(flags)[0 + k];
    }
  }

  // ---------------------------------------------------------------------------
  // What the result holds

  /** One more channel adds its one key; a lemma of its own so that its
      callers stay small for the solver. */
  lemma ChannelSetNext(n: nat)
    ensures ChannelSet(n + 1) == ChannelSet(n) + {AinName(n)}
  {
  }

  /** The sixteen result keys are sixteen different strings. */
  lemma {:induction false} ChannelSetSize(n: nat)
    ensures |ChannelSet(n)| == n
  {
    if n > 0 {
      ChannelSetSize(n - 1);
      ChannelSetNext(n - 1);
      if AinName(n - 1) in ChannelSet(n - 1) {
        var j :| 0 <= j < n - 1 && AinName(j) == AinName(n - 1);
        AinNameInjective(j, n - 1);
      }
    }
  }

  /** Call `p` of `log` is a direct read of `channel`, answered with `value`. */
  ghost predicate ReadAt(d: Device, channel: string, value: real, log: seq<Call>, p: int)
  {
    && 0 <= p < |log|
    && log[p] == ReadName(channel)
    && d.readName(log[..p], channel) == Success(value)
  }

  /** A reading stored under `channel` is what the device answered for that
      channel in the calls issued from position `from` of `log` on: the value
      of its direct read, or the one-entry map from the channel to the RMS of
      the data of the burst that began with the channel's address lookup. */
  ghost predicate Explained(d: Device, sqrt: real -> real, flags: map<Key, bool>, channel: string,
                            reading: Reading, log: seq<Call>, from: nat)
  {
    if IsRmsChannel(flags, channel) then
      && reading.RmsMap?
      && reading.values.Keys == {channel}
      && exists p :: from + 2 <= p && BurstAt(d, sqrt, channel, reading.values[channel], log, p)
    else
      && reading.Direct?
      && exists p :: from <= p && ReadAt(d, channel, reading.value, log, p)
  }

  /** Later calls do not change what an earlier answer was, and an answer
      given from `from` on was given from any earlier position on. */
  lemma ExplainedExtends(d: Device, sqrt: real -> real, flags: map<Key, bool>, channel: string,
                         reading: Reading, log: seq<Call>, from: nat, log': seq<Call>, from': nat)
    requires log <= log' && from' <= from
    requires Explained(d, sqrt, flags, channel, reading, log, from)
    ensures Explained(d, sqrt, flags, channel, reading, log', from')
  {
    if IsRmsChannel(flags, channel) {
      var p :| from + 2 <= p && BurstAt(d, sqrt, channel, reading.values[channel], log, p);
      BurstAtExtends(d, sqrt, channel, reading.values[channel], log, log', p);
    } else {
      var p :| from <= p && ReadAt(d, channel, reading.value, log, p);
      assert log'[..p] == log[..p];
      assert ReadAt(d, channel, reading.value, log', p);
    }
  }

  lemma ReadChannelExplained(d: Device, sqrt: real -> real, flags: map<Key, bool>, channel: string, log: seq<Call>)
    ensures var out := ReadChannel(d, sqrt, flags, channel, log);
      out.result.Success? ==> Explained(d, sqrt, flags, channel, out.result.value, out.log, |log|)
  {
    var out := ReadChannel(d, sqrt, flags, channel, log);
    if IsRmsChannel(flags, channel) {
      StreamRmsSingle(d, sqrt, channel, log);
      BurstValue(d, sqrt, channel, log);
      if out.result.Success? {
        assert BurstAt(d, sqrt, channel, out.result.value.values[channel], out.log, |log| + 2);
      }
    } else if out.result.Success? {
      assert out.log[..|log|] == log;
      assert ReadAt(d, channel, out.result.value.value, out.log, |log|);
    }
  }

  /** Adding channel `i`'s reading keeps every gathered reading explained. */
  lemma ExplainedStep(d: Device, sqrt: real -> real, flags: map<Key, bool>, from: nat, i: nat,
                      acc: map<string, Reading>, log: seq<Call>, step: Run<Reading>)
    requires from <= |log|
    requires acc.Keys == ChannelSet(i)
    requires forall j :: 0 <= j < i ==> Explained(d, sqrt, flags, AinName(j), acc[AinName(j)], log, from)
    requires log <= step.log && step.result.Success?
    requires Explained(d, sqrt, flags, AinName(i), step.result.value, step.log, |log|)
    ensures var acc' := acc[AinName(i) := step.result.value];
      && acc'.Keys == ChannelSet(i + 1)
      && forall j :: 0 <= j < i + 1 ==> Explained(d, sqrt, flags, AinName(j), acc'[AinName(j)], step.log, from)
  {
    var acc' := acc[AinName(i) := step.result.value];
    ChannelSetNext(i);
    forall j | 0 <= j < i + 1
      ensures Explained(d, sqrt, flags, AinName(j), acc'[AinName(j)], step.log, from)
    {
      if j < i {
        if AinName(j) == AinName(i) {
          AinNameInjective(j, i);
        }
        ExplainedExtends(d, sqrt, flags, AinName(j), acc[AinName(j)], log, from, step.log, from);
      } else {
        ExplainedExtends(d, sqrt, flags, AinName(i), step.result.value, step.log, |log|, step.log, from);
      }
    }
  }

  /** A successful `read_samples` result holds one reading per key
      "AIN0".."AIN15", each explained by the calls issued from `from` on. */
  ghost predicate AllExplained(d: Device, sqrt: real -> real, flags: map<Key, bool>, from: nat,
                               out: Run<map<string, Reading>>)
  {
    out.result.Success? ==>
      && out.result.value.Keys == ChannelSet(NumAnalogInputs)
      && forall j :: 0 <= j < NumAnalogInputs ==>
           Explained(d, sqrt, flags, AinName(j), out.result.value[AinName(j)], out.log, from)
  }

  lemma {:induction false} ReadSamplesFromResult(d: Device, sqrt: real -> real, flags: map<Key, bool>, from: nat,
                                                 i: nat, acc: map<string, Reading>, log: seq<Call>)
    requires i <= NumAnalogInputs && from <= |log|
    requires acc.Keys == ChannelSet(i)
    requires forall j :: 0 <= j < i ==> Explained(d, sqrt, flags, AinName(j), acc[AinName(j)], log, from)
    ensures AllExplained(d, sqrt, flags, from, ReadSamplesFrom(d, sqrt, flags, i, acc, log))
    decreases NumAnalogInputs - i
  {
    var out := ReadSamplesFrom(d, sqrt, flags, i, acc, log);
    if i == NumAnalogInputs {
      assert out == Run(Success(acc), log);
    } else {
      var channel := AinName(i);
      var step := ReadChannel(d, sqrt, flags, channel, log);
      match step.result
      case Failure(e) =>
        assert out == Run(Failure(e), step.log);
      case Success(reading) =>
        var acc' := acc[channel := reading];
        var rest := ReadSamplesFrom(d, sqrt, flags, i + 1, acc', step.log);
        assert out == rest;
        ReadChannelExplained(d, sqrt, flags, channel, log);
        ExplainedStep(d, sqrt, flags, from, i, acc, log, step);
        ReadSamplesFromResult(d, sqrt, flags, from, i + 1, acc', step.log);
    }
  }

  /** When `read_samples` returns, its keys are exactly "AIN0".."AIN15",
      whatever the channel names, each holding what the device answered for
      that channel during this call; RMS readings are never negative. */
  lemma ReadSamplesResult(d: Device, sqrt: real -> real, flags: map<Key, bool>, log: seq<Call>)
    ensures var out := ReadSamples(d, sqrt, flags, log);
      out.result.Success? ==>
        && out.result.value.Keys == ChannelSet(NumAnalogInputs)
        && |out.result.value| == NumAnalogInputs
        && (forall j :: 0 <= j < NumAnalogInputs ==>
              Explained(d, sqrt, flags, AinName(j), out.result.value[AinName(j)], out.log, |log|))
        && (IsSquareRoot(sqrt) ==>
              forall j :: 0 <= j < NumAnalogInputs && IsRmsChannel(flags, AinName(j)) ==>
                0.0 <= out.result.value[AinName(j)].values[AinName(j)])
  {
    var out := ReadSamples(d, sqrt, flags, log);
    assert ChannelSet(0) == {};
    ReadSamplesFromResult(d, sqrt, flags, |log|, 0, map[], log);
    ChannelSetSize(NumAnalogInputs);
    if out.result.Success? {
      assert |out.result.value| == |out.result.value.Keys|;
      if IsSquareRoot(sqrt) {
        forall j | 0 <= j < NumAnalogInputs && IsRmsChannel(flags, AinName(j))
          ensures 0.0 <= out.result.value[AinName(j)].values[AinName(j)]
        {
          var reading := out.result.value[AinName(j)];
          assert Explained(d, sqrt, flags, AinName(j), reading, out.log, |log|);
          var p :| |log| + 2 <= p && BurstAt(d, sqrt, AinName(j), reading.values[AinName(j)], out.log, p);
        }
      }
    }
  }
}
