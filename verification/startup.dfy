/** Process startup: the command-line loop and the choice of layouts, in the
    order the top-level script performs them. */
module Startup {
  import opened Wrappers
  import opened Arbitration

  /** The only accepted argument; it turns on logging of device names. */
  const DebugFlag: string := "-d"

  /** Exit status after printing the usage text. */
  const UsageStatus: int := 2

  /** Settings the process runs with once startup succeeds. */
  datatype Config = Config(debug: bool, layouts: Layouts)

  /** Walks the arguments after the program name: each "-d" sets the debug
      flag, and the first other argument ends the process with the usage
      status. */
  method ParseArguments(arguments: seq<string>) returns (r: Result<bool, int>)
    requires |arguments| >= 1
    ensures r.Failure? <==> exists i :: 1 <= i < |arguments| && arguments[i] != DebugFlag
    ensures r.Failure? ==> r.error == UsageStatus
    ensures r.Success? ==> (r.value <==> |arguments| > 1)
  {
    var debug := false;
    for i := 1 to |arguments|
      invariant debug <==> i > 1
      invariant forall j :: 1 <= j < i ==> arguments[j] == DebugFlag
    {
      if arguments[i] == DebugFlag {
        debug := true;
      } else {
        return Failure(UsageStatus);
      }
    }
    return Success(debug);
  }

  /** Arguments are checked before the input sources, so a bad argument
      reports the usage status even when layouts are missing too. */
  method Configure(arguments: seq<string>, sources: seq<InputSource>) returns (r: Result<Config, int>)
    requires |arguments| >= 1
    ensures (exists i :: 1 <= i < |arguments| && arguments[i] != DebugFlag) ==> r == Failure(UsageStatus)
    ensures (forall i :: 1 <= i < |arguments| ==> arguments[i] == DebugFlag) ==>
            r == (if |sources| < 2 then Failure(TooFewLayoutsStatus)
                  else Success(Config(|arguments| > 1, Layouts(sources[0], sources[1]))))
  {
    var parsed := ParseArguments(arguments);
    if parsed.Failure? {
      return Failure(parsed.error);
    }
    var layouts := GetLayouts(sources);
    if layouts.Failure? {
      return Failure(layouts.error);
    }
    return Success(Config(parsed.value, layouts.value));
  }
}
