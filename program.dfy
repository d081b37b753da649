/**
 * The generator's `Program`: the parsed arguments and the interface read back
 * from the trial compile are fields, and parsing, the trial compile and the
 * assembly of the wrapper are methods over them, each proved against its
 * specification function.
 */
module ShaderCompiler {
  import opened Wrappers
  import opened Strings
  import opened UniformTypes
  import opened ShaderItems
  import opened Extensions
  import opened Arguments
  import opened StageCompiler
  import opened WrapperEmitter
  import opened CommandLine

  /** `Info` before `ParseArgs` sets it: a default-initialised struct, its strings empty here. */
  function Unparsed(): ArgInfo {
    ArgInfo(false, None, "", "", MajorMinor(0, 0), [])
  }

  /** What the generator is built from, drawn from the program's fields. */
  function InputOf(info: ArgInfo, uniforms: seq<UniformItem>, attributes: seq<AttribItem>): WrapperInput {
    WrapperInput(info.namespace, info.shaderName, info.recompileFromFile, info.stages, uniforms, attributes)
  }

  class Program {
    var info: ArgInfo
    var uniforms: seq<UniformItem>
    var attributes: seq<AttribItem>

    constructor()
      ensures info == Unparsed() && uniforms == [] && attributes == []
    {
      info := Unparsed();
      uniforms := [];
      attributes := [];
    }

    /**
     * `ParseArgs`: the defaults, then each argument in order. An exception the
     * loop does not catch ends parsing and is returned, `info` holding what
     * the arguments before it produced.
     */
    method ParseArgs(args: seq<string>, host: Host) returns (escaped: Option<Exception>)
      modifies this
      ensures ParseArgsSpec(args, host).Success? ==> escaped == None && info == ParseArgsSpec(args, host).value
      ensures ParseArgsSpec(args, host).Failure? ==> escaped == Some(ParseArgsSpec(args, host).error)
      ensures escaped.Some? ==> exists k :: 0 <= k < |args| && ParseArgsSpec(args[..k], host) == Success(info)
                                             && ApplyArg(info, args[k], host) == Failure(escaped.value)
      ensures uniforms == old(uniforms) && attributes == old(attributes)
    {
      info := Defaults(host.argsHash);
      var i := 0;
      while i < |args|
        invariant 0 <= i <= |args|
        invariant ParseArgsSpec(args[..i], host) == Success(info)
        invariant uniforms == old(uniforms) && attributes == old(attributes)
      {
        assert args[..i + 1][..i] == args[..i];
        var next := ApplyArg(info, args[i], host);
        if next.Failure? {
          ParseFailureIsFinal(args, host, i + 1);
          return Some(next.error);
        }
        info := next.value;
        i := i + 1;
      }
      assert args[..i] == args;
      return None;
    }

    /**
     * The stage loop of `TestCompile`: once a compute stage has been seen, a
     * stage of any other kind ends it with the mixing error; every other stage
     * is compiled, and a failure is logged and remembered.
     */
    static method CompileStages(stages: seq<StageItem>, gl: GLResults) returns (sc: Scan)
      ensures sc == ScanStages(stages, gl)
    {
      var isCompute := false;
      var failed := false;
      var messages: seq<string> := [];
      var i := 0;
      while i < |stages|
        invariant 0 <= i <= |stages|
        invariant ScanStages(stages[..i], gl) == Scan(isCompute, failed, false, i, messages)
      {
        assert stages[..i + 1][..i] == stages[..i];
        var stage := stages[i];
        isCompute := isCompute || stage.stage == Compute;
        if isCompute && stage.stage != Compute {
          messages := messages + [MixedComputeMessage];
          RejectionIsFinal(stages, gl, i + 1);
          return Scan(isCompute, failed, true, i, messages);
        }
        var cr := gl.compile(stage);
        if cr.status == 0 {
          messages := messages + [StageFailedMessage(stage, cr.infoLog)];
          failed := true;
        }
        i := i + 1;
      }
      assert stages[..i] == stages;
      return Scan(isCompute, failed, false, i, messages);
    }

    /**
     * `TestCompile`: the stage loop, the link, and, on success, the
     * attributes and then the uniforms appended in index order. `messages`
     * are the lines it prints.
     */
    method TestCompile(gl: GLResults) returns (passed: bool, messages: seq<string>)
      modifies this
      ensures passed == TestCompileSpec(old(info.stages), gl).passed
      ensures messages == TestCompileSpec(old(info.stages), gl).messages
      ensures attributes == old(attributes) + TestCompileSpec(old(info.stages), gl).attributes
      ensures uniforms == old(uniforms) + TestCompileSpec(old(info.stages), gl).uniforms
      ensures info == old(info)
    {
      var sc := CompileStages(info.stages, gl);
      messages := sc.messages;
      if sc.rejected {
        return false, messages;
      }
      if sc.failed {
        messages := messages + [CompileFailedMessage];
        return false, messages;
      }
      if gl.link.status == 0 {
        messages := messages + [LinkFailedMessage(gl.link.infoLog)];
        return false, messages;
      }
      var k := 0;
      while k < |gl.link.attributes|
        invariant 0 <= k <= |gl.link.attributes|
        invariant attributes == old(attributes) + gl.link.attributes[..k]
        invariant uniforms == old(uniforms) && info == old(info)
      {
        attributes := attributes + [gl.link.attributes[k]];
        assert gl.link.attributes[..k + 1] == gl.link.attributes[..k] + [gl.link.attributes[k]];
        k := k + 1;
      }
      assert gl.link.attributes[..k] == gl.link.attributes;
      k := 0;
      while k < |gl.link.uniforms|
        invariant 0 <= k <= |gl.link.uniforms|
        invariant uniforms == old(uniforms) + gl.link.uniforms[..k]
        invariant attributes == old(attributes) + gl.link.attributes && info == old(info)
      {
        uniforms := uniforms + [gl.link.uniforms[k]];
        assert gl.link.uniforms[..k + 1] == gl.link.uniforms[..k] + [gl.link.uniforms[k]];
        k := k + 1;
      }
      assert gl.link.uniforms[..k] == gl.link.uniforms;
      return true, messages;
    }

    /**
     * The first loop of `WriteToFile`: it numbers the texture units and
     * builds the use-time and draw-time commands, throwing at the first
     * uniform whose type is refused.
     */
    static method BuildCommands(us: seq<UniformItem>) returns (r: Result<Commands, ActiveUniformType>)
      ensures FirstUnsupported(us).None? ==> r == Success(UniformCommands(us))
      ensures FirstUnsupported(us).Some? ==> r == Failure(FirstUnsupported(us).value)
    {
      var counter := 0;
      var initCommands: seq<string> := [];
      var drawCommands: seq<string> := [];
      var i := 0;
      while i < |us|
        invariant 0 <= i <= |us|
        invariant forall k :: 0 <= k < i ==> Supported(us[k])
        invariant counter == TextureCount(us[..i])
        invariant Commands(initCommands, drawCommands) == UniformCommands(us[..i])
      {
        var item := us[i];
        var t := GetUniformType(item.tag);
        if t.None? {
          FirstUnsupportedIsFirstRefused(us, i);
          return Failure(item.tag);
        }
        CommandsExtend(us, i);
        if t.value == Texture {
          initCommands := initCommands + [ActiveTextureCommand(counter), BindTextureCommand(item.name)];
          drawCommands := drawCommands + [TextureDrawCommand(item.name, counter)];
          counter := counter + 1;
        } else {
          drawCommands := drawCommands + [GetDrawCommand(item.tag, item.name)];
        }
        i := i + 1;
      }
      assert us[..i] == us;
      return Success(Commands(initCommands, drawCommands));
    }

    /** `WriteToFile` up to the write: the commands, then the lines of the wrapper. */
    method WriteToFile() returns (r: Result<seq<string>, ActiveUniformType>)
      ensures r == WrapperSource(InputOf(info, uniforms, attributes))
    {
      var commands :- BuildCommands(uniforms);
      return Success(WrapperLines(InputOf(info, uniforms, attributes), commands));
    }

    /**
     * The splitting closure of `SplitCommandLine`: its two captured flags
     * become loop variables, and its answer for each character is recorded.
     */
    static method SplitMarks(commandLine: string) returns (marks: seq<bool>)
      ensures marks == Marks(commandLine)
    {
      var inQuotes := false;
      var isEscaping := false;
      marks := [];
      var i := 0;
      while i < |commandLine|
        invariant 0 <= i <= |commandLine|
        invariant marks == Marks(commandLine[..i])
        invariant QuoteState(inQuotes, isEscaping) == StateAfter(commandLine[..i])
      {
        assert commandLine[..i + 1][..i] == commandLine[..i];
        var c := commandLine[i];
        var split: bool;
        if c == '\\' && !isEscaping {
          isEscaping := true;
          split := false;
        } else {
          if c == '"' && !isEscaping {
            inQuotes := !inQuotes;
          }
          isEscaping := false;
          split := !inQuotes && IsWhiteSpace(c);
        }
        marks := marks + [split];
        i := i + 1;
      }
      assert commandLine[..i] == commandLine;
    }

    /** The `Select` and `Where` of `SplitCommandLine`, pieces taken in order. */
    static method CleanArguments(pieces: seq<string>) returns (r: Result<seq<string>, Exception>)
      ensures r == CleanPieces(pieces)
    {
      var args: seq<string> := [];
      var k := 0;
      while k < |pieces|
        invariant 0 <= k <= |pieces|
        invariant CleanPieces(pieces[..k]) == Success(args)
      {
        assert pieces[..k + 1][..k] == pieces[..k];
        var cleaned := CleanPiece(pieces[k]);
        if cleaned.Failure? {
          CleaningFailureIsFinal(pieces, k + 1);
          return Failure(cleaned.error);
        }
        if cleaned.value != [] {
          args := args + [cleaned.value];
        } else {
          assert args + [] == args;
        }
        k := k + 1;
      }
      assert pieces[..k] == pieces;
      return Success(args);
    }

    /** `SplitCommandLine`. */
    static method SplitCommandLine(commandLine: string) returns (r: Result<seq<string>, Exception>)
      ensures r == SplitCommandLineSpec(commandLine)
    {
      var marks := SplitMarks(commandLine);
      var pieces := SplitWhere(commandLine, marks);
      r := CleanArguments(pieces);
    }
  }

  // ---------------------------------------------------------------------------
  // An exception ends each loop for good
  // ---------------------------------------------------------------------------

  lemma {:induction false} ParseFailureIsFinal(args: seq<string>, host: Host, n: nat)
    requires n <= |args| && ParseArgsSpec(args[..n], host).Failure?
    ensures ParseArgsSpec(args, host) == ParseArgsSpec(args[..n], host)
  {
    if n < |args| {
      var front := args[..|args| - 1];
      assert front[..n] == args[..n];
      ParseFailureIsFinal(front, host, n);
    } else {
      assert args[..n] == args;
    }
  }

  lemma {:induction false} RejectionIsFinal(stages: seq<StageItem>, gl: GLResults, n: nat)
    requires n <= |stages| && ScanStages(stages[..n], gl).rejected
    ensures ScanStages(stages, gl) == ScanStages(stages[..n], gl)
  {
    if n < |stages| {
      var front := stages[..|stages| - 1];
      assert front[..n] == stages[..n];
      RejectionIsFinal(front, gl, n);
    } else {
      assert stages[..n] == stages;
    }
  }

  /** What one more uniform adds to the commands and to the texture count. */
  lemma CommandsExtend(us: seq<UniformItem>, i: nat)
    requires i < |us|
    ensures var c := UniformCommands(us[..i]);
            var unit := TextureCount(us[..i]);
            UniformCommands(us[..i + 1])
            == if IsTexture(us[i])
               then Commands(c.init + [ActiveTextureCommand(unit), BindTextureCommand(us[i].name)],
                             c.draw + [TextureDrawCommand(us[i].name, unit)])
               else Commands(c.init, c.draw + [GetDrawCommand(us[i].tag, us[i].name)])
    ensures TextureCount(us[..i + 1]) == TextureCount(us[..i]) + if IsTexture(us[i]) then 1 else 0
  {
    assert us[..i + 1][..i] == us[..i];
  }

  lemma {:induction false} CleaningFailureIsFinal(pieces: seq<string>, n: nat)
    requires n <= |pieces| && CleanPieces(pieces[..n]).Failure?
    ensures CleanPieces(pieces) == CleanPieces(pieces[..n])
  {
    if n < |pieces| {
      var front := pieces[..|pieces| - 1];
      assert front[..n] == pieces[..n];
      CleaningFailureIsFinal(front, n);
    } else {
      assert pieces[..n] == pieces;
    }
  }
}
