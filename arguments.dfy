/**
 * The command-line interpretation of the generator: the `ArgInfo` record,
 * what each argument does to it, the exceptions that skip an argument and
 * the ones that abort, and the context-version check made before compiling.
 */
module Arguments {
  import opened Wrappers
  import opened Strings
  import opened Extensions
  import opened ShaderItems

  // ---------------------------------------------------------------------------
  // Versions and the context check
  // ---------------------------------------------------------------------------

  /** `System.Version`; an absent build or revision component is -1. */
  datatype Version = Version(major: int, minor: int, build: int, revision: int)

  /** `new Version(major, minor)`. */
  function MajorMinor(major: int, minor: int): Version {
    Version(major, minor, -1, -1)
  }

  /** `Version.CompareTo(...) < 0`: component by component, major first. */
  predicate Less(a: Version, b: Version) {
    a.major < b.major
    || (a.major == b.major
        && (a.minor < b.minor
            || (a.minor == b.minor
                && (a.build < b.build || (a.build == b.build && a.revision < b.revision)))))
  }

  lemma LessIsStrictTotalOrder(a: Version, b: Version, c: Version)
    ensures !Less(a, a)
    ensures Less(a, b) && Less(b, c) ==> Less(a, c)
    ensures a == b || Less(a, b) || Less(b, a)
  {}

  /** The oldest context the generator will ask for: 3.0. */
  function MinimumContextVersion(): Version {
    MajorMinor(3, 0)
  }

  /** The version actually requested: the expected one, raised to 3.0 if it is lower. */
  function ClampContextVersion(expected: Version): (v: Version)
    ensures !Less(v, MinimumContextVersion()) && !Less(v, expected)
    ensures v == expected || v == MinimumContextVersion()
  {
    if Less(expected, MinimumContextVersion()) then MinimumContextVersion() else expected
  }

  /** The clamp is the least version that is at least both 3.0 and the expected version. */
  lemma ClampIsLeastUpperBound(expected: Version, w: Version)
    requires !Less(w, MinimumContextVersion()) && !Less(w, expected)
    ensures !Less(w, ClampContextVersion(expected))
  {}

  /** `GLVersionException(Version, Expected)`. */
  datatype GLVersionException = GLVersionException(version: Version, expected: Version)

  /**
   * `CreateContext`, given the version of the context it obtained: success
   * yields the version that was requested; a context older than that raises
   * the exception, carrying both versions.
   */
  function CreateContext(expected: Version, contextVersion: Version): (r: Result<Version, GLVersionException>)
    ensures r.Success? <==> !Less(contextVersion, ClampContextVersion(expected))
    ensures r.Success? ==> r.value == ClampContextVersion(expected)
    ensures r.Failure? ==> r.error == GLVersionException(contextVersion, ClampContextVersion(expected))
  {
    var requested := ClampContextVersion(expected);
    if Less(contextVersion, requested) then Failure(GLVersionException(contextVersion, requested))
    else Success(requested)
  }

  /** A context older than 3.0 is refused whatever version was expected. */
  lemma ContextBelowMinimumIsRefused(expected: Version, contextVersion: Version)
    requires Less(contextVersion, MinimumContextVersion())
    ensures CreateContext(expected, contextVersion).Failure?
  {
    LessIsStrictTotalOrder(contextVersion, MinimumContextVersion(), ClampContextVersion(expected));
  }

  /** A context at least as new as both 3.0 and the expected version is accepted. */
  lemma ContextAtLeastExpectedIsAccepted(expected: Version, contextVersion: Version)
    requires !Less(contextVersion, MinimumContextVersion()) && !Less(contextVersion, expected)
    ensures CreateContext(expected, contextVersion).Success?
  {
    ClampIsLeastUpperBound(expected, contextVersion);
  }

  // ---------------------------------------------------------------------------
  // Argument interpretation
  // ---------------------------------------------------------------------------

  /** `Program.ArgInfo`; `EmbedAsString` is derived from `recompileFromFile`. */
  datatype ArgInfo = ArgInfo(
    recompileFromFile: bool,
    outputFile: Option<string>,
    shaderName: string,
    namespace: string,
    contextVersion: Version,
    stages: seq<StageItem>)
  {
    predicate EmbedAsString() {
      !recompileFromFile
    }
  }

  /**
   * What the argument parser gets from its environment: the contents of a
   * file by path (or the exception reading it raises), the parse of a
   * version string by `new Version(string)`, and the hash code of the
   * argument array.
   */
  datatype Host = Host(
    readAllText: string -> Result<string, Exception>,
    parseVersion: string -> Result<Version, Exception>,
    argsHash: int)

  /** The record before any argument is seen. */
  function Defaults(argsHash: int): ArgInfo {
    ArgInfo(false, None, "__Shader" + IntString(argsHash), "Shaders", MajorMinor(3, 0), [])
  }

  /** The stage a bare file name selects by its extension, ignoring case, first match winning. */
  function StageOfFile(arg: string): Option<ShaderStage> {
    if EndsWithIgnoreCase(arg, ".vert") then Some(Vertex)
    else if EndsWithIgnoreCase(arg, ".frag") then Some(Fragment)
    else if EndsWithIgnoreCase(arg, ".geom") then Some(Geometry)
    else if EndsWithIgnoreCase(arg, ".tessEval") then Some(TessEval)
    else if EndsWithIgnoreCase(arg, ".tessControl") then Some(TessControl)
    else if EndsWithIgnoreCase(arg, ".compute") then Some(Compute)
    else if EndsWithIgnoreCase(arg, ".vs") then Some(Vertex)
    else if EndsWithIgnoreCase(arg, ".fs") then Some(Fragment)
    else if EndsWithIgnoreCase(arg, ".gs") then Some(Geometry)
    else None
  }

  /** Upper or lower case in a file name makes no difference to its stage. */
  lemma StageOfFileIgnoresCase(arg: string)
    ensures StageOfFile(Lower(arg)) == StageOfFile(arg)
  {
    EndsWithIgnoresCase(arg, ".vert");
    EndsWithIgnoresCase(arg, ".frag");
    EndsWithIgnoresCase(arg, ".geom");
    EndsWithIgnoresCase(arg, ".tessEval");
    EndsWithIgnoresCase(arg, ".tessControl");
    EndsWithIgnoresCase(arg, ".compute");
    EndsWithIgnoresCase(arg, ".vs");
    EndsWithIgnoresCase(arg, ".fs");
    EndsWithIgnoresCase(arg, ".gs");
  }

  /** The option prefixes that name a stage file, and how long each prefix is. */
  function StageOption(option: string): Option<(nat, ShaderStage)> {
    if StartsWith(option, "vert=") then Some((5, Vertex))
    else if StartsWith(option, "frag=") then Some((5, Fragment))
    else if StartsWith(option, "geom=") then Some((5, Geometry))
    else if StartsWith(option, "tessEval=") then Some((9, TessEval))
    else if StartsWith(option, "tessControl=") then Some((12, TessControl))
    else if StartsWith(option, "compute=") then Some((8, Compute))
    else None
  }

  predicate IsOption(arg: string) {
    StartsWith(arg, "-") || StartsWith(arg, "/")
  }

  /**
   * Appends a stage named by an option. The path is the value with its quotes
   * trimmed, but the file is read through the untrimmed value, as written.
   */
  function AddStageOption(info: ArgInfo, value: string, stage: ShaderStage, host: Host): Result<ArgInfo, Exception> {
    var path :- TrimMatchingQuotes(value);
    var text :- host.readAllText(value);
    Success(info.(stages := info.stages + [StageItem(path, stage, text)]))
  }

  /** One option (the argument without its `-` or `/`), in the order the source tests them. */
  function InterpretOption(info: ArgInfo, option: string, host: Host): Result<ArgInfo, Exception> {
    if option == "r" then Success(info.(recompileFromFile := true))
    else if option == "s" then Success(info.(recompileFromFile := false))
    else if StartsWith(option, "out=") then
      var file :- TrimMatchingQuotes(option[4..]);
      Success(info.(outputFile := Some(file)))
    else if StartsWith(option, "name=") then
      var name :- TrimMatchingQuotes(option[5..]);
      Success(info.(shaderName := name))
    else if StageOption(option).Some? then
      var (k, stage) := StageOption(option).value;
      AddStageOption(info, option[k..], stage, host)
    else if StartsWith(option, "namespace=") then
      var ns :- TrimMatchingQuotes(option[10..]);
      Success(info.(namespace := ns))
    else if StartsWith(option, "contextVersion=") then
      var text :- TrimMatchingQuotes(option[15..]);
      var version :- host.parseVersion(text);
      Success(info.(contextVersion := version))
    else
      Success(info) // reported as an unknown argument and ignored
  }

  /** One argument, with every exception it raises. */
  function Interpret(info: ArgInfo, arg: string, host: Host): Result<ArgInfo, Exception> {
    if IsOption(arg) then InterpretOption(info, arg[1..], host)
    else match StageOfFile(arg)
      case None => Success(info) // reported as a file of unknown stage and ignored
      case Some(stage) =>
        var text :- host.readAllText(arg);
        Success(info.(stages := info.stages + [StageItem(arg, stage, text)]))
  }

  /** The exceptions `ParseArgs` catches per argument; any other one escapes it. */
  predicate Caught(e: Exception) {
    e.Format? || e.Overflow? || e.ArgumentOutOfRange? || e.FileNotFound?
  }

  /** One iteration of the argument loop: a caught exception skips the argument. */
  function ApplyArg(info: ArgInfo, arg: string, host: Host): (r: Result<ArgInfo, Exception>)
    ensures r.Failure? ==> !Caught(r.error)
    ensures Interpret(info, arg, host).Success? ==> r == Interpret(info, arg, host)
    ensures Interpret(info, arg, host).Failure? && Caught(Interpret(info, arg, host).error) ==> r == Success(info)
    ensures Interpret(info, arg, host).Failure? && !Caught(Interpret(info, arg, host).error) ==> r == Interpret(info, arg, host)
  {
    match Interpret(info, arg, host)
    case Success(next) => Success(next)
    case Failure(e) => if Caught(e) then Success(info) else Failure(e)
  }

  /** `ParseArgs`: the defaults, then every argument in order, stopping at an escaping exception. */
  function ParseArgsSpec(args: seq<string>, host: Host): Result<ArgInfo, Exception> {
    if args == [] then Success(Defaults(host.argsHash))
    else
      var info :- ParseArgsSpec(args[..|args| - 1], host);
      ApplyArg(info, args[|args| - 1], host)
  }

  // ---------------------------------------------------------------------------
  // Properties of argument parsing
  // ---------------------------------------------------------------------------

  lemma NoArgumentsGiveDefaults(host: Host)
    ensures ParseArgsSpec([], host) == Success(ArgInfo(false, None, "__Shader" + IntString(host.argsHash),
                                                       "Shaders", MajorMinor(3, 0), []))
  {}

  predicate IsRecompileFlag(arg: string) {
    arg == "-r" || arg == "/r"
  }

  predicate IsEmbedFlag(arg: string) {
    arg == "-s" || arg == "/s"
  }

  /** Only `-r`, `/r`, `-s` and `/s` touch the recompile flag. */
  lemma OtherArgumentsKeepRecompileFlag(info: ArgInfo, arg: string, host: Host)
    requires !IsRecompileFlag(arg) && !IsEmbedFlag(arg)
    requires ApplyArg(info, arg, host).Success?
    ensures ApplyArg(info, arg, host).value.recompileFromFile == info.recompileFromFile
  {
    if IsOption(arg) {
      var option := arg[1..];
      assert arg == [arg[0]] + option;
      assert option != "r" && option != "s";
      OtherOptionsKeepRecompileFlag(info, option, host);
    }
  }

  lemma OtherOptionsKeepRecompileFlag(info: ArgInfo, option: string, host: Host)
    requires option != "r" && option != "s"
    ensures InterpretOption(info, option, host).Success? ==>
              InterpretOption(info, option, host).value.recompileFromFile == info.recompileFromFile
  {
    if StageOption(option).Some? {
      var (k, stage) := StageOption(option).value;
      assert AddStageOption(info, option[k..], stage, host).Success? ==>
        AddStageOption(info, option[k..], stage, host).value.recompileFromFile == info.recompileFromFile;
    }
  }

  /** The recompile flag the last `-r` or `-s` among the arguments asks for; off without one. */
  function RequestedRecompile(args: seq<string>): bool {
    if args == [] then false
    else if IsRecompileFlag(args[|args| - 1]) then true
    else if IsEmbedFlag(args[|args| - 1]) then false
    else RequestedRecompile(args[..|args| - 1])
  }

  /** The last of `-r` and `-s` wins. */
  lemma {:induction false} LastRecompileFlagWins(args: seq<string>, host: Host)
    requires ParseArgsSpec(args, host).Success?
    ensures ParseArgsSpec(args, host).value.recompileFromFile == RequestedRecompile(args)
  {
    if args != [] {
      var front := args[..|args| - 1];
      var arg := args[|args| - 1];
      LastRecompileFlagWins(front, host);
      var info := ParseArgsSpec(front, host).value;
      if !IsRecompileFlag(arg) && !IsEmbedFlag(arg) {
        OtherArgumentsKeepRecompileFlag(info, arg, host);
      }
    }
  }

  /** Stages are only ever appended, at most one per argument. */
  lemma ApplyArgAppendsStages(info: ArgInfo, arg: string, host: Host)
    requires ApplyArg(info, arg, host).Success?
    ensures var stages := ApplyArg(info, arg, host).value.stages;
            stages == info.stages || (|stages| == |info.stages| + 1 && stages[..|info.stages|] == info.stages)
  {
    var stages := ApplyArg(info, arg, host).value.stages;
    if stages != info.stages {
      assert stages[..|info.stages|] == info.stages;
    }
  }

  /** The stages collected are, in order, one per argument that contributed one. */
  lemma {:induction false} StagesFollowArgumentOrder(args: seq<string>, host: Host)
    requires ParseArgsSpec(args, host).Success?
    ensures |ParseArgsSpec(args, host).value.stages| <= |args|
    ensures forall k :: 0 <= k < |args| && ParseArgsSpec(args[..k], host).Success? ==>
              var before := ParseArgsSpec(args[..k], host).value.stages;
              |before| <= |ParseArgsSpec(args, host).value.stages|
              && ParseArgsSpec(args, host).value.stages[..|before|] == before
  {
    if args != [] {
      var front := args[..|args| - 1];
      assert front == args[..|args| - 1];
      StagesFollowArgumentOrder(front, host);
      var info := ParseArgsSpec(front, host).value;
      ApplyArgAppendsStages(info, args[|args| - 1], host);
      forall k | 0 <= k < |args| && ParseArgsSpec(args[..k], host).Success?
        ensures var before := ParseArgsSpec(args[..k], host).value.stages;
                |before| <= |ParseArgsSpec(args, host).value.stages|
                && ParseArgsSpec(args, host).value.stages[..|before|] == before
      {
        if k < |args| - 1 {
          assert args[..k] == front[..k];
        } else {
          assert args[..k] == front;
        }
      }
    }
  }

  /** An option with an empty value, such as `-out=`, reads past the end of it and aborts parsing. */
  lemma EmptyOutputFileAborts(info: ArgInfo, host: Host)
    ensures ApplyArg(info, "-out=", host) == Failure(IndexOutOfRange)
  {
    assert "-out="[1..] == "out=";
    assert "out="[4..] == "";
  }

  /** A file of unrecognised extension leaves the record as it was. */
  lemma IgnoredArgumentsChangeNothing(info: ArgInfo, arg: string, host: Host)
    requires !IsOption(arg) && StageOfFile(arg).None?
    ensures ApplyArg(info, arg, host) == Success(info)
  {}

  /** An option the parser does not know leaves the record as it was. */
  lemma UnknownOptionsChangeNothing(info: ArgInfo, arg: string, host: Host)
    requires IsOption(arg) && arg[1..] != "r" && arg[1..] != "s" && StageOption(arg[1..]).None?
    requires !StartsWith(arg[1..], "out=") && !StartsWith(arg[1..], "name=")
    requires !StartsWith(arg[1..], "namespace=") && !StartsWith(arg[1..], "contextVersion=")
    ensures ApplyArg(info, arg, host) == Success(info)
  {}

  /** An option means the same whether it is introduced by `-` or by `/`. */
  lemma OptionPrefixesAgree(info: ArgInfo, option: string, host: Host)
    ensures Interpret(info, "-" + option, host) == Interpret(info, "/" + option, host)
    ensures Interpret(info, "-" + option, host) == InterpretOption(info, option, host)
  {
    assert ("-" + option)[1..] == option && ("/" + option)[1..] == option;
    assert StartsWith("-" + option, "-") && StartsWith("/" + option, "/");
  }

  /**
   * An argument the loop skips, because reading it raised a caught exception,
   * might as well not have been given: removing it from the arguments leaves
   * the outcome of parsing unchanged.
   */
  lemma {:induction false} SkippedArgumentChangesNothing(before: seq<string>, arg: string, after: seq<string>, host: Host)
    requires ParseArgsSpec(before, host).Success?
    requires Interpret(ParseArgsSpec(before, host).value, arg, host).Failure?
    requires Caught(Interpret(ParseArgsSpec(before, host).value, arg, host).error)
    ensures ParseArgsSpec(before + [arg] + after, host) == ParseArgsSpec(before + after, host)
  {
    ParseOneMore(before, arg, host);
    SameRecordSameOutcome(before + [arg], before, after, host);
    assert before + [arg] + after == (before + [arg]) + after;
  }

  /** Parsing goes on from the record reached so far, however that record was reached. */
  lemma {:induction false} SameRecordSameOutcome(xs: seq<string>, ys: seq<string>, after: seq<string>, host: Host)
    requires ParseArgsSpec(xs, host) == ParseArgsSpec(ys, host)
    ensures ParseArgsSpec(xs + after, host) == ParseArgsSpec(ys + after, host)
    decreases |after|
  {
    if after == [] {
      assert xs + after == xs && ys + after == ys;
    } else {
      var front := after[..|after| - 1];
      var last := after[|after| - 1];
      SameRecordSameOutcome(xs, ys, front, host);
      LastSplit(xs, after);
      LastSplit(ys, after);
      ParseOneMore(xs + front, last, host);
      ParseOneMore(ys + front, last, host);
    }
  }

  /** The loop's step on the outcome so far: a failure stays, a record takes the next argument. */
  function Continue(sofar: Result<ArgInfo, Exception>, arg: string, host: Host): (r: Result<ArgInfo, Exception>)
    ensures sofar.Failure? ==> r == sofar
    ensures sofar.Success? ==> r == ApplyArg(sofar.value, arg, host)
  {
    if sofar.Failure? then sofar else ApplyArg(sofar.value, arg, host)
  }

  /** Parsing one more argument applies it to the record parsed so far, unless parsing had already failed. */
  lemma ParseOneMore(args: seq<string>, arg: string, host: Host)
    ensures ParseArgsSpec(args + [arg], host) == Continue(ParseArgsSpec(args, host), arg, host)
  {
    assert (args + [arg])[..|args|] == args;
  }

  lemma LastSplit<T>(xs: seq<T>, after: seq<T>)
    requires after != []
    ensures xs + after == (xs + after[..|after| - 1]) + [after[|after| - 1]]
  {
    assert after == after[..|after| - 1] + [after[|after| - 1]];
  }
}
