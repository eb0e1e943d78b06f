/**
 * The calibration tool end to end, from its command line to the calibration
 * it would save: the arguments are checked before the serial link is used,
 * then the sampling loop runs until the operator stops it.
 */
module Tool {
  import opened Ints
  import opened Wrappers
  import opened Protocol
  import opened Calibration
  import opened CommandLine
  import opened Sampling

  /**
   * `main`, up to the call to `save`: the output path and the calibration data
   * written there, or the usage error that ends the run before the link is
   * touched. The run stops after `cycleCount` cycles.
   */
  method RunCalibration(args: seq<string>, port: Port, cycleCount: nat)
    returns (r: Result<(string, CalibrationData), UsageError>, ghost cycles: seq<Cycle>)
    modifies port
    ensures r.Failure? ==> ParseCommandLine(args) == Failure(r.error) && port.written == old(port.written) && port.pending == old(port.pending)
    ensures r.Success? <==> ParseCommandLine(args).Success?
    ensures r.Success? ==>
      var config := ParseCommandLine(args).value;
      r.value.0 == config.outputPath &&
      (cycles, port.pending) == Polled(old(port.pending), config.ids, cycleCount) &&
      port.written == old(port.written) + RequestLog(config.ids, cycleCount) &&
      r.value.1 == Calibrated(config.ids, cycles) &&
      |r.value.1.servos| == |config.ids|
  {
    cycles := [];
    var parsed := ParseCommandLine(args);
    if parsed.Failure? {
      return Failure(parsed.error), cycles;
    }
    var config := parsed.value;
    var data;
    data, cycles := RangeFind(port, config.ids, cycleCount);
    r := Success((config.outputPath, data));
  }
}
