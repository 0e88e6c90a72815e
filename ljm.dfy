/** The register access port: the part of the LJM library the drivers call.
    The instrument (and the library in front of it) is a `Device` that answers
    each call, possibly with an `LJMError`, given every call issued before it;
    a `Port` issues calls to it and records them, in order, in its log. */
module Ljm {
  import opened Results

  /** `ljm.LJMError`, identified by its error code. */
  datatype LJMError = LJMError(code: int)

  /** One library call, with the arguments the drivers pass. */
  datatype Call =
    | WriteName(name: string, value: real)        // ljm.eWriteName(handle, name, value)
    | ReadName(name: string)                      // ljm.eReadName(handle, name)
    | ReadNames(count: int, names: seq<string>)   // ljm.eReadNames(handle, count, names)
    | NameToAddress(name: string)                 // ljm.nameToAddress(name)
    | StreamStart(scansPerRead: int, numAddresses: int, scanList: seq<int>, scanRate: real)
                                                  // ljm.eStreamStart(handle, ...)
    | StreamRead                                  // ljm.eStreamRead(handle)
    | StreamStop                                  // ljm.eStreamStop(handle)

  /** How the instrument answers each kind of call, given the calls issued before it.
      `nameToAddress` yields the address part of the library's (address, type) pair,
      `streamRead` the data part of its (data, backlogs) triple, `streamStart` the
      scan rate actually achieved. */
  datatype Device = Device(
    writeName: (seq<Call>, string, real) -> Outcome<LJMError>,
    readName: (seq<Call>, string) -> Result<real, LJMError>,
    readNames: (seq<Call>, int, seq<string>) -> Result<seq<real>, LJMError>,
    nameToAddress: (seq<Call>, string) -> Result<int, LJMError>,
    streamStart: (seq<Call>, int, int, seq<int>, real) -> Result<real, LJMError>,
    streamRead: seq<Call> -> Result<seq<real>, LJMError>,
    streamStop: seq<Call> -> Outcome<LJMError>)
  {
    /** The error, if any, with which the device answers `call` issued after `history`. */
    function FailureOf(history: seq<Call>, call: Call): Option<LJMError>
    {
      match call
      case WriteName(name, value) =>
        (match writeName(history, name, value) case Pass => None case Fail(e) => Some(e))
      case ReadName(name) =>
        (match readName(history, name) case Success(_) => None case Failure(e) => Some(e))
      case ReadNames(count, names) =>
        (match readNames(history, count, names) case Success(_) => None case Failure(e) => Some(e))
      case NameToAddress(name) =>
        (match nameToAddress(history, name) case Success(_) => None case Failure(e) => Some(e))
      case StreamStart(scans, count, addresses, rate) =>
        (match streamStart(history, scans, count, addresses, rate) case Success(_) => None case Failure(e) => Some(e))
      case StreamRead =>
        (match streamRead(history) case Success(_) => None case Failure(e) => Some(e))
      case StreamStop =>
        (match streamStop(history) case Pass => None case Fail(e) => Some(e))
    }
  }

  /** The driver's handle on an open device: every call is answered by `device`
      and appended to `log`. */
  class Port {
    const device: Device
    var log: seq<Call>

    constructor (device: Device)
      ensures this.device == device && log == []
    {
      this.device := device;
      log := [];
    }

    method WriteName(name: string, value: real) returns (r: Outcome<LJMError>)
      modifies this
      ensures log == old(log) + [Call.WriteName(name, value)]
      ensures r == device.writeName(old(log), name, value)
    {
      r := device.writeName(log, name, value);
      log := log + [Call.WriteName(name, value)];
    }

    method ReadName(name: string) returns (r: Result<real, LJMError>)
      modifies this
      ensures log == old(log) + [Call.ReadName(name)]
      ensures r == device.readName(old(log), name)
    {
      r := device.readName(log, name);
      log := log + [Call.ReadName(name)];
    }

    method ReadNames(count: int, names: seq<string>) returns (r: Result<seq<real>, LJMError>)
      modifies this
      ensures log == old(log) + [Call.ReadNames(count, names)]
      ensures r == device.readNames(old(log), count, names)
    {
      r := device.readNames(log, count, names);
      log := log + [Call.ReadNames(count, names)];
    }

    method NameToAddress(name: string) returns (r: Result<int, LJMError>)
      modifies this
      ensures log == old(log) + [Call.NameToAddress(name)]
      ensures r == device.nameToAddress(old(log), name)
    {
      r := device.nameToAddress(log, name);
      log := log + [Call.NameToAddress(name)];
    }

    method StreamStart(scansPerRead: int, numAddresses: int, scanList: seq<int>, scanRate: real)
      returns (r: Result<real, LJMError>)
      modifies this
      ensures log == old(log) + [Call.StreamStart(scansPerRead, numAddresses, scanList, scanRate)]
      ensures r == device.streamStart(old(log), scansPerRead, numAddresses, scanList, scanRate)
    {
      r := device.streamStart(log, scansPerRead, numAddresses, scanList, scanRate);
      log := log + [Call.StreamStart(scansPerRead, numAddresses, scanList, scanRate)];
    }

    method StreamRead() returns (r: Result<seq<real>, LJMError>)
      modifies this
      ensures log == old(log) + [Call.StreamRead]
      ensures r == device.streamRead(old(log))
    {
      r := device.streamRead(log);
      log := log + [Call.StreamRead];
    }

    method StreamStop() returns (r: Outcome<LJMError>)
      modifies this
      ensures log == old(log) + [Call.StreamStop]
      ensures r == device.streamStop(old(log))
    {
      r := device.streamStop(log);
      log := log + [Call.StreamStop];
    }
  }
}
