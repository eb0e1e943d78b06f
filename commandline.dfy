/**
 * The command line of the calibration tool:
 * `feetech-calibrate <device> <servo_id> [servo_id ..] [output.json]`.
 * `args[0]` is the program name, as in `std::env::args()`.
 */
module CommandLine {
  import opened Ints
  import opened Wrappers

  const DEFAULT_OUTPUT: string := "calibration.json"

  /** What the tool runs with once its arguments are accepted. */
  datatype Config = Config(device: string, ids: seq<u8>, outputPath: string)

  datatype UsageError =
    | MissingArguments // fewer than three arguments: usage message, exit code 1
    | BadServoId       // an id that is not a `u8`: `expect` panics
    | NoServoIds       // an empty id list: exit code 1

  predicate EndsWith(s: string, suffix: string)
  {
    |suffix| <= |s| && s[|s| - |suffix|..] == suffix
  }

  /**
   * The split of the arguments after the device into servo ids and the output
   * path: the last argument is the output path when there are more than three
   * arguments and it ends in ".json"; otherwise every argument is an id.
   */
  function SplitArgs(args: seq<string>): (r: (seq<string>, string))
    requires 3 <= |args|
    ensures 1 <= |r.0|
    ensures EndsWith(r.1, ".json")
    ensures r.0 + [r.1] == args[2..] <==> 3 < |args| && EndsWith(args[|args| - 1], ".json")
    ensures r.0 == args[2..] <==> !(3 < |args| && EndsWith(args[|args| - 1], ".json"))
    ensures r.0 == args[2..] ==> r.1 == DEFAULT_OUTPUT
  {
    var last := args[|args| - 1];
    if 3 < |args| && EndsWith(last, ".json") then (args[2..|args| - 1], last)
    else (args[2..], DEFAULT_OUTPUT)
  }

  // ---------------------------------------------------------------------------
  // `str::parse::<u8>`
  // ---------------------------------------------------------------------------

  predicate IsDigit(c: char) { '0' <= c <= '9' }

  predicate AllDigits(s: string) { forall k :: 0 <= k < |s| ==> IsDigit(s[k]) }

  /** The value of a string of decimal digits, most significant first. */
  function DecimalValue(s: string): nat
    requires AllDigits(s)
  {
    if s == [] then 0 else DecimalValue(s[..|s| - 1]) * 10 + (s[|s| - 1] - '0') as nat
  }

  /**
   * `s.parse::<u8>()`: an optional '+', then at least one decimal digit, with
   * a value of at most 255. Leading zeros are accepted; a sign alone, a '-', a
   * space or any other character is rejected.
   */
  function ParseU8(s: string): (r: Option<u8>)
    ensures r.Some? ==> 1 <= |s| && s[0] != '-'
    ensures r.Some? && IsDigit(s[0]) ==> AllDigits(s) && DecimalValue(s) == r.value
    ensures r.Some? && !IsDigit(s[0]) ==> s[0] == '+' && AllDigits(s[1..]) && DecimalValue(s[1..]) == r.value
    ensures 1 <= |s| ==>
      var d := if s[0] == '+' then s[1..] else s;
      (d != [] && AllDigits(d) && DecimalValue(d) <= 0xFF ==> r == Some(DecimalValue(d)))
  {
    if s == [] then None
    else
      var digits := if s[0] == '+' then s[1..] else s;
      if digits == [] || !AllDigits(digits) then None
      else if DecimalValue(digits) > 0xFF then None
      else Some(DecimalValue(digits))
  }

  /** The shortest decimal numeral for `n`. */
  function Decimal(n: nat): (s: string)
    ensures 1 <= |s| && AllDigits(s)
  {
    if n < 10 then ['0' + n as char]
    else Decimal(n / 10) + ['0' + (n % 10) as char]
  }

  lemma {:induction false} DecimalValueOfDecimal(n: nat)
    ensures DecimalValue(Decimal(n)) == n
  {
    var s := Decimal(n);
    if n >= 10 {
      assert s[..|s| - 1] == Decimal(n / 10);
      DecimalValueOfDecimal(n / 10);
    }
  }

  /** Every byte's numeral parses back to that byte, and a larger number's numeral is rejected. */
  lemma ParseU8OfDecimal(n: nat)
    ensures n <= 0xFF ==> ParseU8(Decimal(n)) == Some(n)
    ensures 0xFF < n ==> ParseU8(Decimal(n)) == None
  {
    DecimalValueOfDecimal(n);
  }

  /** A sign, leading zeros and the largest byte are accepted; a minus sign, a bare sign and 256 are not. */
  lemma ParseU8Examples()
    ensures ParseU8("+5") == Some(5) && ParseU8("007") == Some(7) && ParseU8("255") == Some(255)
    ensures ParseU8("256") == None && ParseU8("-1") == None && ParseU8("+") == None && ParseU8("") == None
  {
    assert "007"[..2] == "00" && "00"[..1] == "0";
    assert DecimalValue("007") == 7;
    assert "255"[..2] == "25" && "25"[..1] == "2";
    assert DecimalValue("255") == 255;
    assert "256"[..2] == "25";
    assert DecimalValue("256") == 256;
  }

  /** `ids.iter().map(|s| s.parse().expect(..)).collect()`: the first bad id panics. */
  function ParseIds(idArgs: seq<string>): (r: Option<seq<u8>>)
    ensures r.Some? <==> forall k :: 0 <= k < |idArgs| ==> ParseU8(idArgs[k]).Some?
    ensures r.Some? ==> |r.value| == |idArgs|
    ensures r.Some? ==> forall k :: 0 <= k < |idArgs| ==> ParseU8(idArgs[k]) == Some(r.value[k])
  {
    if idArgs == [] then Some([])
    else
      match ParseU8(idArgs[0])
      case None => None
      case Some(id) =>
        match ParseIds(idArgs[1..])
        case None => None
        case Some(rest) => Some([id] + rest)
  }

  /** The argument handling at the top of `main`, in the order the source performs it. */
  function ParseCommandLine(args: seq<string>): (r: Result<Config, UsageError>)
    ensures |args| < 3 <==> r == Failure(MissingArguments)
    ensures r != Failure(NoServoIds)
    ensures 3 <= |args| ==> (r.Success? <==> ParseIds(SplitArgs(args).0).Some?)
    ensures r.Success? ==>
      r.value.device == args[1] && 1 <= |r.value.ids| &&
      ParseIds(SplitArgs(args).0) == Some(r.value.ids) && r.value.outputPath == SplitArgs(args).1
  {
    if |args| < 3 then Failure(MissingArguments)
    else
      var (idArgs, outputPath) := SplitArgs(args);
      match ParseIds(idArgs)
      case None => Failure(BadServoId)
      case Some(ids) =>
        if ids == [] then Failure(NoServoIds)
        else Success(Config(args[1], ids, outputPath))
  }

  /** The two command lines of the tool's documentation: with and without an output path. */
  lemma DocumentedCommandLines()
    ensures ParseCommandLine(["feetech-calibrate", "/dev/ttyX", "1", "2", "out.json"])
         == Success(Config("/dev/ttyX", [1, 2], "out.json"))
    ensures ParseCommandLine(["feetech-calibrate", "/dev/ttyX", "1", "2"])
         == Success(Config("/dev/ttyX", [1, 2], DEFAULT_OUTPUT))
    ensures ParseCommandLine(["feetech-calibrate", "/dev/ttyX", "out.json"]) == Failure(BadServoId)
  {
    assert DecimalValue("1") == 1 by { assert "1"[..0] == []; }
    assert DecimalValue("2") == 2 by { assert "2"[..0] == []; }
    assert ParseU8("1") == Some(1) && ParseU8("2") == Some(2);
    var one: seq<u8> := [1];
    var two: seq<u8> := [2];
    assert ParseIds(["2"]) == Some(two) by {
      assert ["2"][1..] == [];
      assert two == [2 as u8] + [];
    }
    assert ParseIds(["1", "2"]) == Some(one + two) by {
      assert ["1", "2"][1..] == ["2"];
    }
    assert one + two == [1, 2];
    var withPath := ["feetech-calibrate", "/dev/ttyX", "1", "2", "out.json"];
    assert EndsWith("out.json", ".json");
    assert SplitArgs(withPath) == (["1", "2"], "out.json") by {
      assert withPath[2..|withPath| - 1] == ["1", "2"];
    }
    var withoutPath := ["feetech-calibrate", "/dev/ttyX", "1", "2"];
    assert SplitArgs(withoutPath) == (["1", "2"], DEFAULT_OUTPUT) by {
      assert !EndsWith("2", ".json");
      assert withoutPath[2..] == ["1", "2"];
    }
  }
}
