/**
 * The C# source of the wrapper class the generator writes, line by line:
 * the texture-unit numbering shared by `UseShader` and `PassUniforms`, the
 * embedded stage sources, and every section of the class in the order it is
 * emitted.
 */
module WrapperEmitter {
  import opened Wrappers
  import opened Strings
  import opened UniformTypes
  import opened ShaderItems

  // ---------------------------------------------------------------------------
  // Texture units and per-uniform commands
  // ---------------------------------------------------------------------------

  predicate IsTexture(u: UniformItem) {
    GetUniformType(u.tag) == Some(Texture)
  }

  predicate Supported(u: UniformItem) {
    GetUniformType(u.tag).Some?
  }

  /** The number of texture uniforms in `us`. */
  function TextureCount(us: seq<UniformItem>): (n: nat)
    ensures n <= |us|
  {
    if us == [] then 0 else TextureCount(us[..|us| - 1]) + (if IsTexture(us[|us| - 1]) then 1 else 0)
  }

  const TextureUnitMember := "global::OpenTK.Graphics.OpenGL.TextureUnit.Texture"

  function ActiveTextureCommand(unit: nat): string {
    "GL.ActiveTexture(" + TextureUnitMember + DecimalString(unit) + ");"
  }

  function BindTextureCommand(name: string): string {
    "GL.BindTexture(uniform_" + name + ".Target, uniform_" + name + ".TextureID);"
  }

  function TextureDrawCommand(name: string, unit: nat): string {
    "GL.Uniform1(__" + name + ", " + DecimalString(unit) + ");"
  }

  /** `InitCommands` (run by `UseShader`) and `DrawCommands` (run by `PassUniforms`). */
  datatype Commands = Commands(init: seq<string>, draw: seq<string>)

  /**
   * The commands after the first loop of `WriteToFile` has seen `us`: a
   * texture uniform takes the next unit, activating and binding it at use
   * time and passing its number at draw time; any other uniform gets the draw
   * call of its type.
   */
  function UniformCommands(us: seq<UniformItem>): Commands {
    if us == [] then Commands([], [])
    else
      var c := UniformCommands(us[..|us| - 1]);
      var u := us[|us| - 1];
      if IsTexture(u) then
        var unit := TextureCount(us[..|us| - 1]);
        Commands(c.init + [ActiveTextureCommand(unit), BindTextureCommand(u.name)],
                 c.draw + [TextureDrawCommand(u.name, unit)])
      else
        Commands(c.init, c.draw + [GetDrawCommand(u.tag, u.name)])
  }

  /** Exactly one draw command per uniform, and exactly two use-time commands per texture uniform. */
  lemma {:induction false} CommandCounts(us: seq<UniformItem>)
    ensures |UniformCommands(us).draw| == |us|
    ensures |UniformCommands(us).init| == 2 * TextureCount(us)
  {
    if us != [] {
      CommandCounts(us[..|us| - 1]);
    }
  }

  /**
   * The i-th uniform's draw command: a texture passes its unit, which is the
   * number of texture uniforms before it; any other uniform has its type's
   * call.
   */
  lemma {:induction false} DrawCommandOfUniform(us: seq<UniformItem>, i: nat)
    requires i < |us|
    ensures |UniformCommands(us).draw| == |us|
    ensures IsTexture(us[i]) ==> UniformCommands(us).draw[i] == TextureDrawCommand(us[i].name, TextureCount(us[..i]))
    ensures !IsTexture(us[i]) ==> UniformCommands(us).draw[i] == GetDrawCommand(us[i].tag, us[i].name)
  {
    CommandCounts(us);
    var front := us[..|us| - 1];
    CommandCounts(front);
    if i < |us| - 1 {
      DrawCommandOfUniform(front, i);
      assert front[..i] == us[..i];
    }
  }

  /** A supported non-texture uniform is passed with the draw call its logical type needs. */
  lemma DrawCommandOfValueUniform(us: seq<UniformItem>, i: nat)
    requires i < |us| && Supported(us[i]) && !IsTexture(us[i])
    ensures |UniformCommands(us).draw| == |us|
    ensures UniformCommands(us).draw[i] == ExpectedDrawCommand(GetUniformType(us[i].tag).value, us[i].name)
  {
    DrawCommandOfUniform(us, i);
    var u := GetUniformType(us[i].tag).value;
    NativeTagInvertsGetUniformType(us[i].tag);
    if MatrixRows(u) > 0 {
      DrawCommandOfMatrix(u, us[i].name);
    } else {
      DrawCommandOfScalarOrVector(u, us[i].name);
    }
  }

  /** The i-th uniform, if a texture, activates and binds its unit at positions 2k and 2k+1. */
  lemma {:induction false} InitCommandsOfTexture(us: seq<UniformItem>, i: nat)
    requires i < |us| && IsTexture(us[i])
    ensures 2 * TextureCount(us[..i]) + 1 < |UniformCommands(us).init|
    ensures UniformCommands(us).init[2 * TextureCount(us[..i])] == ActiveTextureCommand(TextureCount(us[..i]))
    ensures UniformCommands(us).init[2 * TextureCount(us[..i]) + 1] == BindTextureCommand(us[i].name)
  {
    var front := us[..|us| - 1];
    CommandCounts(us);
    CommandCounts(front);
    var before := UniformCommands(front).init;
    if i < |us| - 1 {
      assert front[..i] == us[..i];
      InitCommandsOfTexture(front, i);
      assert before == UniformCommands(us).init[..|before|];
    } else {
      assert us[..i] == front;
      assert |before| == 2 * TextureCount(front);
    }
  }

  /** Counting textures over a longer prefix never gives less, and a texture adds one. */
  lemma {:induction false} TextureCountGrows(us: seq<UniformItem>, j: nat)
    requires j <= |us|
    ensures TextureCount(us[..j]) <= TextureCount(us)
    ensures j > 0 && IsTexture(us[j - 1]) ==> TextureCount(us[..j - 1]) + 1 <= TextureCount(us)
  {
    if j < |us| {
      var front := us[..|us| - 1];
      assert us[..j] == front[..j];
      if j > 0 {
        assert us[..j - 1] == front[..j - 1];
      }
      TextureCountGrows(front, j);
    } else {
      assert us[..j] == us;
      if j > 0 {
        assert us[..j - 1] == us[..|us| - 1];
      }
    }
  }

  /** Distinct texture uniforms get distinct units, increasing in list order. */
  lemma TextureUnitsIncrease(us: seq<UniformItem>, i: nat, j: nat)
    requires i < j < |us| && IsTexture(us[i]) && IsTexture(us[j])
    ensures TextureCount(us[..i]) < TextureCount(us[..j])
  {
    var p := us[..j];
    TextureCountGrows(p, i + 1);
    assert p[..i + 1] == us[..i + 1] && p[..i] == us[..i];
  }

  /** The units `UseShader` activates are 0, 1, ..., N-1 for the N texture uniforms, in order. */
  lemma {:induction false} TextureUnitsAreContiguous(us: seq<UniformItem>)
    ensures |UniformCommands(us).init| == 2 * TextureCount(us)
    ensures forall k :: 0 <= k < TextureCount(us) ==> UniformCommands(us).init[2 * k] == ActiveTextureCommand(k)
  {
    CommandCounts(us);
    if us != [] {
      var front := us[..|us| - 1];
      TextureUnitsAreContiguous(front);
      CommandCounts(front);
    }
  }

  // ---------------------------------------------------------------------------
  // Sections of the wrapper class
  // ---------------------------------------------------------------------------

  /** The lines `f` gives for each element of `xs`, in order. */
  function Each<T>(xs: seq<T>, f: T -> seq<string>): (r: seq<string>)
  {
    if xs == [] then [] else Each(xs[..|xs| - 1], f) + f(xs[|xs| - 1])
  }

  /** The backing-field type of a uniform; refused tags never reach the emitter. */
  function FieldType(u: UniformItem): string {
    match GetUniformType(u.tag)
    case Some(t) => TypeName(t)
    case None => ""
  }

  /** What the wrapper is generated from. */
  datatype WrapperInput = WrapperInput(
    namespace: string,
    shaderName: string,
    recompileFromFile: bool,
    stages: seq<StageItem>,
    uniforms: seq<UniformItem>,
    attributes: seq<AttribItem>)

  /** `CompilerVersion.ToString()` for `new Version(0, 1, 10)`. */
  const CompilerVersion := "0.1.10"

  // The longer fixed lines and fragments are named, one constant each, so that
  // reasoning about a section does not have to take every character of them in.

  const ChangesWarning := "//\tChanges to this file may cause incorrect behavior and will be lost if"
  const UsingGL := "using GL = global::OpenTK.Graphics.OpenGL.GL;"
  const GeneratedCodeAttribute := "\t[global::System.CodeDom.Compiler.GeneratedCodeAttribute(\"ShaderCompiler.exe\", \"" + CompilerVersion + "\")]"
  const SupportsShadersProperty := "\t\tpublic static bool ImplementationSupportsShaders"
  const SupportsShadersTest := "\t\t\t\treturn (new Version(GL.GetString(global::OpenTK.Graphics.OpenGL.StringName.Version).Substring(0, 3)) >= new Version(2, 0) ? true : false);"

  /** The notice and the `using` lines at the top of the file. */
  const GeneratedNotice: seq<string> :=
    [ "// <auto-generated>",
      "//\tThis code was generated by a Tool.",
      "//",
      ChangesWarning,
      "//\tthe code is regenerated.",
      "// <auto-generated>",
      "",
      "using System;",
      UsingGL,
      "",
      "#pragma warning disable 168",
      "" ]

  /** The static property telling whether the driver's OpenGL version is at least 2.0. */
  const SupportsShadersMember: seq<string> :=
    [ SupportsShadersProperty,
      "\t\t{",
      "\t\t\tget",
      "\t\t\t{",
      SupportsShadersTest,
      "\t\t\t}",
      "\t\t}" ]

  function Header(ns: string, className: string): seq<string> {
    GeneratedNotice
    + [ "namespace " + ns,
        "{",
        GeneratedCodeAttribute,
        "\tpublic class " + className + " : global::ShaderRuntime.GLShader",
        "\t{" ]
    + SupportsShadersMember
  }

  function UniformFieldLines(u: UniformItem): seq<string> {
    [ "\t\tpublic static int __" + u.name + ";",
      "\t\tpublic " + FieldType(u) + " uniform_" + u.name + ";" ]
  }

  function AttribFieldLines(a: AttribItem): seq<string> {
    [ "\t\tpublic static int __" + a.name + ";" ]
  }

  /** The reference counter that deletes the program when the last instance is disposed. */
  const CounterField := "\t\tprivate static global::ShaderRuntime.Utility.Counter Ctr = new global::ShaderRuntime.Utility.Counter(new Action(delegate{ GL.DeleteProgram(ProgramID); ProgramID = 0; }));"

  /** The program handle, its reference counter and the transpose flag. */
  const ProgramFields := [ "\t\tstatic int ProgramID;", CounterField, "\t\tpublic bool TransposeMatrix = false;" ]

  function Fields(us: seq<UniformItem>, attrs: seq<AttribItem>): seq<string> {
    ProgramFields + Each(us, UniformFieldLines) + Each(attrs, AttribFieldLines)
  }

  /** The constant holding a stage's text, line endings escaped as `\n`. */
  function SourceConstant(st: StageItem): string {
    "\t\tprivate static string " + StageName(st.stage) + "Source = \"" + EscapeLineEndings(st.source) + "\";"
  }

  function SourceConstantLines(st: StageItem): seq<string> {
    [ SourceConstant(st) ]
  }

  function SourceConstants(stages: seq<StageItem>): seq<string> {
    Each(stages, SourceConstantLines)
  }

  const ReadAllTextFrom := "Source = global::System.IO.File.ReadAllText(@\""

  function ReloadLines(st: StageItem): seq<string> {
    [ "\t\t\t" + StageName(st.stage) + ReadAllTextFrom + st.path + "\");" ]
  }

  const LoadShadersSignature := "\t\tprivate static void LoadShaders()"

  function LoadShadersBlock(stages: seq<StageItem>): seq<string> {
    [ LoadShadersSignature, "\t\t{" ]
    + Each(stages, ReloadLines)
    + [ "\t\t}" ]
  }

  const CompileShaderOpening := [ "\t\tpublic static void CompileShader()", "\t\t{" ]
  const LoadShadersCall := "\t\t\tLoadShaders();"

  const CreateShaderOfType := " = GL.CreateShader(global::OpenTK.Graphics.OpenGL.ShaderType."

  function StageCompileLines(st: StageItem): seq<string> {
    var n := StageName(st.stage);
    [ "\t\t\tint " + n + CreateShaderOfType + ShaderTypeName(st.stage) + ");",
      "\t\t\tGL.ShaderSource(" + n + ", " + n + "Source);",
      "\t\t\tGL.CompileShader(" + n + ");",
      "\t\t\tGL.AttachShader(ProgramID, " + n + ");" ]
  }

  function StageReleaseLines(st: StageItem): seq<string> {
    var n := StageName(st.stage);
    [ "\t\t\tGL.DetachShader(ProgramID, " + n + ");",
      "\t\t\tGL.DeleteShader(" + n + ");" ]
  }

  function UniformLocationLines(u: UniformItem): seq<string> {
    [ "\t\t\t__" + u.name + " = GL.GetUniformLocation(ProgramID, \"" + u.name + "\");" ]
  }

  function AttribLocationLines(a: AttribItem): seq<string> {
    [ "\t\t\t__" + a.name + " = GL.GetAttribLocation(ProgramID, \"" + a.name + "\");" ]
  }

  const WriteProgramInfoLog := "\t\t\tglobal::System.Diagnostics.Debug.WriteLine(GL.GetProgramInfoLog(ProgramID));"

  /** `CompileShader` after its opening (and the `LoadShaders` call, if any). */
  function CompileShaderRest(stages: seq<StageItem>, us: seq<UniformItem>, attrs: seq<AttribItem>): seq<string> {
    [ "\t\t\tProgramID = GL.CreateProgram();" ]
    + Each(stages, StageCompileLines)
    + [ "\t\t\tGL.LinkProgram(ProgramID);",
        WriteProgramInfoLog ]
    + Each(stages, StageReleaseLines)
    + Each(us, UniformLocationLines)
    + Each(attrs, AttribLocationLines)
    + [ "\t\t}" ]
  }

  /** `Recompile` (which, as written, passes the program to `DeleteShader`) and `Compile`. */
  function CompileMethods(): seq<string> {
    [ "\t\tpublic void Recompile()",
      "\t\t{",
      "\t\t\tGL.DeleteShader(ProgramID);",
      "\t\t\tProgramID = 0;",
      "\t\t\tCompile();",
      "\t\t}",
      "\t\tpublic void Compile()",
      "\t\t{",
      "\t\t\tif(ProgramID == 0)",
      "\t\t\t\tCompileShader();",
      "\t\t\tCtr++;",
      "\t\t}" ]
  }

  const SetParameterSignature := "\t\tpublic void SetParameter<T>(string name, T value)"
  const GetParameterSignature := "\t\tpublic T GetParameter<T>(string name)"
  /** What `SetParameter` and `GetParameter` throw for a name that is no uniform. */
  const NoSuchUniform := "\t\t\t\t\t\tthrow new global::ShaderRuntime.InvalidIdentifierException(\"There is no uniform variable named \" + name + \" in this shader.\");"
  /** What `SetParameter` throws when the value does not cast to the field's type. */
  const SetParameterBadCast := "\t\t\t\tthrow new global::ShaderRuntime.InvalidParameterTypeException(\"Invalid parameter type: \" + name + \" is not convertible from the type \\\"\" + typeof(T).FullName + \"\\\".\");"
  /** What `GetParameter` throws when the field does not cast to `T` (its message misspells "parameter"). */
  const GetParameterBadCast := "\t\t\t\tthrow new global::ShaderRuntime.InvalidParameterTypeException(\"Invalid paramater type: \" + name + \" is not convertible to the type \\\"\" + typeof(T).FullName + \"\\\".\");"

  function SetParameterCase(u: UniformItem): seq<string> {
    [ "\t\t\t\t\tcase \"" + u.name + "\":",
      "\t\t\t\t\t\tuniform_" + u.name + " = (" + FieldType(u) + ")(object)value;",
      "\t\t\t\t\t\tbreak;" ]
  }

  /** The start of `SetParameter` and `GetParameter`: the signature, then `try` around a `switch` on the name. */
  function SwitchOpening(signature: string): seq<string> {
    [ signature,
      "\t\t{",
      "\t\t\ttry",
      "\t\t\t{",
      "\t\t\t\tswitch(name)",
      "\t\t\t\t{" ]
  }

  /** The end of `SetParameter` and `GetParameter`: the unknown-name default and the failed-cast handler. */
  function SwitchClosing(badCast: string): seq<string> {
    [ "\t\t\t\t\tdefault:",
      NoSuchUniform,
      "\t\t\t\t}",
      "\t\t\t}",
      "\t\t\tcatch(InvalidCastException e)",
      "\t\t\t{",
      badCast,
      "\t\t\t}",
      "\t\t}" ]
  }

  function SetParameter(us: seq<UniformItem>): seq<string> {
    SwitchOpening(SetParameterSignature) + Each(us, SetParameterCase) + SwitchClosing(SetParameterBadCast)
  }

  function GetParameterCase(u: UniformItem): seq<string> {
    [ "\t\t\t\t\tcase \"" + u.name + "\":",
      "\t\t\t\t\t\treturn (T)(object)uniform_" + u.name + ";" ]
  }

  function GetParameter(us: seq<UniformItem>): seq<string> {
    SwitchOpening(GetParameterSignature) + Each(us, GetParameterCase) + SwitchClosing(GetParameterBadCast)
  }

  /** A `case` of `GetParameterLocation`, returning the location field of that name. */
  function LocationCase(name: string): seq<string> {
    [ "\t\t\t\tcase \"" + name + "\":",
      "\t\t\t\t\treturn __" + name + ";" ]
  }

  /** The names `GetParameterLocation` answers for: the uniforms', then the attributes'. */
  function ParameterNames(us: seq<UniformItem>, attrs: seq<AttribItem>): seq<string> {
    seq(|us|, i requires 0 <= i < |us| => us[i].name) + seq(|attrs|, i requires 0 <= i < |attrs| => attrs[i].name)
  }

  const GetParameterLocationSignature := "\t\tpublic int GetParameterLocation(string name)"
  const NoSuchParameter := "\t\t\t\t\tthrow new global::ShaderRuntime.InvalidIdentifierException(\"There is no parameter named \" + name + \".\");"

  const LocationOpening := [ GetParameterLocationSignature, "\t\t{", "\t\t\tswitch(name)", "\t\t\t{" ]
  const LocationClosing := [ "\t\t\t\tdefault:", NoSuchParameter, "\t\t\t}", "\t\t}" ]

  function GetParameterLocation(us: seq<UniformItem>, attrs: seq<AttribItem>): seq<string> {
    LocationOpening + Each(ParameterNames(us, attrs), LocationCase) + LocationClosing
  }

  function Indented(cmd: string): seq<string> {
    [ "\t\t\t" + cmd ]
  }

  function PassUniforms(draw: seq<string>): seq<string> {
    [ "\t\tpublic void PassUniforms()", "\t\t{" ] + Each(draw, Indented) + [ "\t\t}" ]
  }

  function EnableAttribLines(a: AttribItem): seq<string> {
    [ "\t\t\tGL.EnableVertexAttribArray(__" + a.name + ");" ]
  }

  function UseShader(init: seq<string>, attrs: seq<AttribItem>): seq<string> {
    [ "\t\tpublic void UseShader()", "\t\t{", "\t\t\tGL.UseProgram(ProgramID);" ]
    + Each(init, Indented)
    + Each(attrs, EnableAttribLines)
    + [ "\t\t}" ]
  }

  function YieldNameLines(u: UniformItem): seq<string> {
    [ "\t\t\tyield return \"" + u.name + "\";" ]
  }

  /** `GetShaderID` on a shader not compiled yet throws, naming the class. */
  const NotInitializedPrefix := "\t\t\tthrow new global::ShaderRuntime.ShaderNotInitializedException(\"The shader \\\""
  const NotInitializedSuffix := "\\\" has not been initialized. Call Compile() on one of the instances or CompileShader() to compile the shader\");"
  const ReturnSupportsShaders := "\t\t\t\treturn ImplementationSupportsShaders;"
  const GetUniformNamesSignature := "\t\tpublic global::System.Collections.Generic.IEnumerable<string> GetUniformNames()"

  /** `GetShaderID`, `Dispose`, `IsSupported` and the start of `GetUniformNames`. */
  function TrailerOpening(className: string): seq<string> {
    [ "\t\tpublic int GetShaderID()",
      "\t\t{",
      "\t\t\tif(ProgramID != 0)",
      "\t\t\t\treturn ProgramID;",
      NotInitializedPrefix + className + NotInitializedSuffix,
      "\t\t}",
      "\t\tpublic void Dispose()",
      "\t\t{",
      "\t\t\tCtr--;",
      "\t\t}",
      "\t\tpublic bool IsSupported",
      "\t\t{",
      "\t\t\tget",
      "\t\t\t{",
      ReturnSupportsShaders,
      "\t\t\t}",
      "\t\t}",
      GetUniformNamesSignature,
      "\t\t{" ]
  }

  /** The end of `GetUniformNames`, of the class and of the namespace. */
  const TrailerClosing := [ "\t\t}", "\t}", "}" ]

  function Trailer(className: string, us: seq<UniformItem>): seq<string> {
    TrailerOpening(className) + Each(us, YieldNameLines) + TrailerClosing
  }

  /** Everything up to and including the embedded stage sources. */
  function LinesBeforeLoadShaders(w: WrapperInput): seq<string> {
    Header(w.namespace, w.shaderName) + Fields(w.uniforms, w.attributes) + SourceConstants(w.stages)
  }

  /** Everything after `CompileShader`. */
  function LinesAfterCompileShader(w: WrapperInput, c: Commands): seq<string> {
    CompileMethods()
    + SetParameter(w.uniforms)
    + GetParameter(w.uniforms)
    + GetParameterLocation(w.uniforms, w.attributes)
    + PassUniforms(c.draw)
    + UseShader(c.init, w.attributes)
    + Trailer(w.shaderName, w.uniforms)
  }

  /** The lines of the wrapper, given the commands the first loop built. */
  function WrapperLines(w: WrapperInput, c: Commands): seq<string> {
    if w.recompileFromFile then
      LinesBeforeLoadShaders(w) + LoadShadersBlock(w.stages)
      + (CompileShaderOpening + [LoadShadersCall] + CompileShaderRest(w.stages, w.uniforms, w.attributes))
      + LinesAfterCompileShader(w, c)
    else
      LinesBeforeLoadShaders(w)
      + (CompileShaderOpening + CompileShaderRest(w.stages, w.uniforms, w.attributes))
      + LinesAfterCompileShader(w, c)
  }

  /** The first uniform whose tag the type switch refuses, if any. */
  function FirstUnsupported(us: seq<UniformItem>): (r: Option<ActiveUniformType>)
    ensures r.None? <==> forall i :: 0 <= i < |us| ==> Supported(us[i])
    ensures r.Some? ==> exists i :: 0 <= i < |us| && !Supported(us[i]) && us[i].tag == r.value
                                    && forall k :: 0 <= k < i ==> Supported(us[k])
  {
    if us == [] then None
    else
      var front := us[..|us| - 1];
      var r := FirstUnsupported(front);
      assert forall k :: 0 <= k < |front| ==> front[k] == us[k];
      if r.Some? then r
      else if !Supported(us[|us| - 1]) then Some(us[|us| - 1].tag)
      else None
  }

  /** The first refused uniform, when every one before it is supported, is the one reported. */
  lemma FirstUnsupportedIsFirstRefused(us: seq<UniformItem>, i: nat)
    requires i < |us| && !Supported(us[i])
    requires forall k :: 0 <= k < i ==> Supported(us[k])
    ensures FirstUnsupported(us) == Some(us[i].tag)
  {
    var r := FirstUnsupported(us);
    var j :| 0 <= j < |us| && !Supported(us[j]) && us[j].tag == r.value
             && forall k :: 0 <= k < j ==> Supported(us[k]);
    assert !(j < i) && !(i < j);
  }

  /**
   * `WriteToFile` before the write: it throws at the first refused uniform
   * type, before producing any line; otherwise it yields the wrapper.
   */
  function WrapperSource(w: WrapperInput): Result<seq<string>, ActiveUniformType> {
    match FirstUnsupported(w.uniforms)
    case Some(t) => Failure(t)
    case None => Success(WrapperLines(w, UniformCommands(w.uniforms)))
  }

  // ---------------------------------------------------------------------------
  // Properties of the wrapper
  // ---------------------------------------------------------------------------

  lemma {:induction false} EachLength<T>(xs: seq<T>, f: T -> seq<string>, n: nat)
    requires forall x :: |f(x)| == n
    ensures |Each(xs, f)| == n * |xs|
  {
    if xs != [] {
      EachLength(xs[..|xs| - 1], f, n);
      assert |f(xs[|xs| - 1])| == n;
      assert n * |xs| == n * (|xs| - 1) + n;
    }
  }

  lemma {:induction false} EachOneLine<T>(xs: seq<T>, f: T -> seq<string>, i: nat)
    requires forall x :: |f(x)| == 1
    requires i < |xs|
    ensures |Each(xs, f)| == |xs| && Each(xs, f)[i] == f(xs[i])[0]
  {
    EachLength(xs, f, 1);
    if i < |xs| - 1 {
      EachOneLine(xs[..|xs| - 1], f, i);
    }
  }

  lemma NoLineEndingsJoin(a: string, b: string)
    requires NoLineEndings(a) && NoLineEndings(b)
    ensures NoLineEndings(a + b)
  {
    forall i | 0 <= i < |a + b| ensures !IsLineEnding((a + b)[i]) {
      if i >= |a| {
        assert (a + b)[i] == b[i - |a|];
      }
    }
  }

  lemma StageNameIsOneLine(s: ShaderStage)
    ensures NoLineEndings(StageName(s))
  {}

  lemma SourceConstantPrefixIsOneLine(name: string)
    requires NoLineEndings(name)
    ensures NoLineEndings("\t\tprivate static string " + name + "Source = \"")
  {
    var p1 := "\t\tprivate static string ";
    var p2 := "Source = \"";
    assert NoLineEndings(p1) && NoLineEndings(p2);
    NoLineEndingsJoin(p1, name);
    NoLineEndingsJoin(p1 + name, p2);
  }

  /**
   * An embedded source constant is a single line: every line ending of the
   * stage's text is escaped, and reading the literal back gives the text
   * with its line endings normalised to `\n`.
   */
  lemma SourceConstantIsOneLine(st: StageItem)
    ensures NoLineEndings(SourceConstant(st))
    ensures '\\' !in st.source ==> DecodeNewlineEscapes(EscapeLineEndings(st.source)) == NormalizeLineEndings(st.source)
  {
    var e := EscapeLineEndings(st.source);
    StageNameIsOneLine(st.stage);
    var pre := "\t\tprivate static string " + StageName(st.stage) + "Source = \"";
    SourceConstantPrefixIsOneLine(StageName(st.stage));
    assert NoLineEndings("\";");
    NoLineEndingsJoin(pre, e);
    NoLineEndingsJoin(pre + e, "\";");
  }

  /** The embedded sources form one block, a constant per stage in stage order. */
  lemma SourceConstantPerStage(stages: seq<StageItem>, k: nat)
    requires k < |stages|
    ensures |SourceConstants(stages)| == |stages|
    ensures SourceConstants(stages)[k] == SourceConstant(stages[k])
  {
    EachOneLine(stages, SourceConstantLines, k);
  }

  /** With `n` lines per element, line `k` of element `i` is line `n * i + k` of the whole. */
  lemma {:induction false} EachAt<T>(xs: seq<T>, f: T -> seq<string>, n: nat, i: nat, k: nat)
    requires forall x :: |f(x)| == n
    requires i < |xs| && k < n
    ensures |Each(xs, f)| == n * |xs| && n * i + k < n * |xs|
    ensures Each(xs, f)[n * i + k] == f(xs[i])[k]
  {
    var front := xs[..|xs| - 1];
    EachLength(xs, f, n);
    EachLength(front, f, n);
    assert n * |xs| == n * |front| + n;
    if i < |front| {
      EachAt(front, f, n, i, k);
    } else {
      assert n * i == n * |front|;
    }
  }

  /**
   * `LoadShaders`: its signature and opening brace, then one line per stage
   * reloading that stage's source from the path it was named by, in stage
   * order, then the closing brace.
   */
  lemma LoadShadersLayout(stages: seq<StageItem>)
    ensures |LoadShadersBlock(stages)| == |stages| + 3
    ensures LoadShadersBlock(stages)[0] == LoadShadersSignature && LoadShadersBlock(stages)[1] == "\t\t{"
    ensures forall i :: 0 <= i < |stages| ==>
              LoadShadersBlock(stages)[2 + i] == "\t\t\t" + StageName(stages[i].stage) + ReadAllTextFrom + stages[i].path + "\");"
    ensures LoadShadersBlock(stages)[|stages| + 2] == "\t\t}"
  {
    EachLength(stages, ReloadLines, 1);
    forall i | 0 <= i < |stages|
      ensures LoadShadersBlock(stages)[2 + i]
              == "\t\t\t" + StageName(stages[i].stage) + ReadAllTextFrom + stages[i].path + "\");"
    {
      EachOneLine(stages, ReloadLines, i);
      SectionAt([LoadShadersSignature, "\t\t{"], Each(stages, ReloadLines), ["\t\t}"], i);
    }
  }

  /** Line `j` of the middle part of `head + mid + tail` is line `|head| + j` of the whole. */
  lemma SectionAt(head: seq<string>, mid: seq<string>, tail: seq<string>, j: nat)
    requires j < |mid|
    ensures |head| + j < |head + mid + tail| && (head + mid + tail)[|head| + j] == mid[j]
  {
  }

  lemma EachUniformFieldAt(us: seq<UniformItem>, i: nat)
    requires i < |us|
    ensures 2 * i + 1 < |Each(us, UniformFieldLines)|
    ensures Each(us, UniformFieldLines)[2 * i] == "\t\tpublic static int __" + us[i].name + ";"
            && Each(us, UniformFieldLines)[2 * i + 1] == "\t\tpublic " + FieldType(us[i]) + " uniform_" + us[i].name + ";"
  {
    assert forall x :: |UniformFieldLines(x)| == 2;
    EachAt(us, UniformFieldLines, 2, i, 0);
    EachAt(us, UniformFieldLines, 2, i, 1);
  }

  lemma UniformFieldsAt(us: seq<UniformItem>, attrs: seq<AttribItem>, i: nat)
    requires i < |us|
    ensures 4 + 2 * i < |Fields(us, attrs)|
    ensures Fields(us, attrs)[3 + 2 * i] == "\t\tpublic static int __" + us[i].name + ";"
            && Fields(us, attrs)[4 + 2 * i] == "\t\tpublic " + FieldType(us[i]) + " uniform_" + us[i].name + ";"
  {
    var uniforms := Each(us, UniformFieldLines);
    EachUniformFieldAt(us, i);
    SectionAt(ProgramFields, uniforms, Each(attrs, AttribFieldLines), 2 * i);
    SectionAt(ProgramFields, uniforms, Each(attrs, AttribFieldLines), 2 * i + 1);
  }

  lemma AttributeFieldAt(us: seq<UniformItem>, attrs: seq<AttribItem>, j: nat)
    requires j < |attrs|
    ensures 3 + 2 * |us| + j < |Fields(us, attrs)|
    ensures Fields(us, attrs)[3 + 2 * |us| + j] == "\t\tpublic static int __" + attrs[j].name + ";"
  {
    EachLength(us, UniformFieldLines, 2);
    EachOneLine(attrs, AttribFieldLines, j);
    assert Fields(us, attrs) == (ProgramFields + Each(us, UniformFieldLines)) + Each(attrs, AttribFieldLines) + [];
    SectionAt(ProgramFields + Each(us, UniformFieldLines), Each(attrs, AttribFieldLines), [], j);
  }

  /**
   * The fields: `ProgramID`, `Ctr` and `TransposeMatrix`, then for each
   * uniform its location and its backing field, then for each attribute its
   * location, in list order.
   */
  lemma FieldsFollowUniformsThenAttributes(us: seq<UniformItem>, attrs: seq<AttribItem>)
    ensures |Fields(us, attrs)| == 3 + 2 * |us| + |attrs|
    ensures forall i :: 0 <= i < |us| ==>
              Fields(us, attrs)[3 + 2 * i] == "\t\tpublic static int __" + us[i].name + ";"
              && Fields(us, attrs)[4 + 2 * i] == "\t\tpublic " + FieldType(us[i]) + " uniform_" + us[i].name + ";"
    ensures forall j :: 0 <= j < |attrs| ==>
              Fields(us, attrs)[3 + 2 * |us| + j] == "\t\tpublic static int __" + attrs[j].name + ";"
  {
    EachLength(us, UniformFieldLines, 2);
    EachLength(attrs, AttribFieldLines, 1);
    forall i | 0 <= i < |us|
      ensures Fields(us, attrs)[3 + 2 * i] == "\t\tpublic static int __" + us[i].name + ";"
              && Fields(us, attrs)[4 + 2 * i] == "\t\tpublic " + FieldType(us[i]) + " uniform_" + us[i].name + ";"
    {
      UniformFieldsAt(us, attrs, i);
    }
    forall j | 0 <= j < |attrs|
      ensures Fields(us, attrs)[3 + 2 * |us| + j] == "\t\tpublic static int __" + attrs[j].name + ";"
    {
      AttributeFieldAt(us, attrs, j);
    }
  }

  lemma EachSetParameterCaseAt(us: seq<UniformItem>, i: nat)
    requires i < |us|
    ensures 3 * i + 2 < |Each(us, SetParameterCase)|
    ensures Each(us, SetParameterCase)[3 * i] == "\t\t\t\t\tcase \"" + us[i].name + "\":"
            && Each(us, SetParameterCase)[3 * i + 1] == "\t\t\t\t\t\tuniform_" + us[i].name + " = (" + FieldType(us[i]) + ")(object)value;"
            && Each(us, SetParameterCase)[3 * i + 2] == "\t\t\t\t\t\tbreak;"
  {
    assert forall x :: |SetParameterCase(x)| == 3;
    EachAt(us, SetParameterCase, 3, i, 0);
    EachAt(us, SetParameterCase, 3, i, 1);
    EachAt(us, SetParameterCase, 3, i, 2);
  }

  lemma SetParameterCaseAt(us: seq<UniformItem>, i: nat)
    requires i < |us|
    ensures 8 + 3 * i < |SetParameter(us)|
    ensures SetParameter(us)[6 + 3 * i] == "\t\t\t\t\tcase \"" + us[i].name + "\":"
            && SetParameter(us)[8 + 3 * i] == "\t\t\t\t\t\tbreak;"
  {
    var opening, cases, closing := SwitchOpening(SetParameterSignature), Each(us, SetParameterCase), SwitchClosing(SetParameterBadCast);
    EachSetParameterCaseAt(us, i);
    SectionAt(opening, cases, closing, 3 * i);
    SectionAt(opening, cases, closing, 3 * i + 2);
  }

  lemma SetParameterAssignmentAt(us: seq<UniformItem>, i: nat)
    requires i < |us|
    ensures 8 + 3 * i < |SetParameter(us)|
    ensures SetParameter(us)[7 + 3 * i] == "\t\t\t\t\t\tuniform_" + us[i].name + " = (" + FieldType(us[i]) + ")(object)value;"
  {
    var opening, cases, closing := SwitchOpening(SetParameterSignature), Each(us, SetParameterCase), SwitchClosing(SetParameterBadCast);
    EachSetParameterCaseAt(us, i);
    SectionAt(opening, cases, closing, 3 * i + 1);
    SectionAt(opening, cases, closing, 3 * i + 2);
  }

  /** `SetParameter` has, after its six opening lines, a three-line `case` per uniform, in list order. */
  lemma SetParameterCasesFollowUniforms(us: seq<UniformItem>)
    ensures |SetParameter(us)| == 15 + 3 * |us|
    ensures forall i :: 0 <= i < |us| ==>
              SetParameter(us)[6 + 3 * i] == "\t\t\t\t\tcase \"" + us[i].name + "\":"
              && SetParameter(us)[7 + 3 * i] == "\t\t\t\t\t\tuniform_" + us[i].name + " = (" + FieldType(us[i]) + ")(object)value;"
              && SetParameter(us)[8 + 3 * i] == "\t\t\t\t\t\tbreak;"
  {
    EachLength(us, SetParameterCase, 3);
    forall i | 0 <= i < |us|
      ensures SetParameter(us)[6 + 3 * i] == "\t\t\t\t\tcase \"" + us[i].name + "\":"
              && SetParameter(us)[7 + 3 * i] == "\t\t\t\t\t\tuniform_" + us[i].name + " = (" + FieldType(us[i]) + ")(object)value;"
              && SetParameter(us)[8 + 3 * i] == "\t\t\t\t\t\tbreak;"
    {
      SetParameterCaseAt(us, i);
      SetParameterAssignmentAt(us, i);
    }
  }

  lemma EachGetParameterCaseAt(us: seq<UniformItem>, i: nat)
    requires i < |us|
    ensures 2 * i + 1 < |Each(us, GetParameterCase)|
    ensures Each(us, GetParameterCase)[2 * i] == "\t\t\t\t\tcase \"" + us[i].name + "\":"
            && Each(us, GetParameterCase)[2 * i + 1] == "\t\t\t\t\t\treturn (T)(object)uniform_" + us[i].name + ";"
  {
    assert forall x :: |GetParameterCase(x)| == 2;
    EachAt(us, GetParameterCase, 2, i, 0);
    EachAt(us, GetParameterCase, 2, i, 1);
  }

  lemma GetParameterCaseAt(us: seq<UniformItem>, i: nat)
    requires i < |us|
    ensures 7 + 2 * i < |GetParameter(us)|
    ensures GetParameter(us)[6 + 2 * i] == "\t\t\t\t\tcase \"" + us[i].name + "\":"
            && GetParameter(us)[7 + 2 * i] == "\t\t\t\t\t\treturn (T)(object)uniform_" + us[i].name + ";"
  {
    var opening, cases, closing := SwitchOpening(GetParameterSignature), Each(us, GetParameterCase), SwitchClosing(GetParameterBadCast);
    EachGetParameterCaseAt(us, i);
    SectionAt(opening, cases, closing, 2 * i);
    SectionAt(opening, cases, closing, 2 * i + 1);
  }

  /** `GetParameter` has, after its six opening lines, a two-line `case` per uniform, in list order. */
  lemma GetParameterCasesFollowUniforms(us: seq<UniformItem>)
    ensures |GetParameter(us)| == 15 + 2 * |us|
    ensures forall i :: 0 <= i < |us| ==>
              GetParameter(us)[6 + 2 * i] == "\t\t\t\t\tcase \"" + us[i].name + "\":"
              && GetParameter(us)[7 + 2 * i] == "\t\t\t\t\t\treturn (T)(object)uniform_" + us[i].name + ";"
  {
    EachLength(us, GetParameterCase, 2);
    forall i | 0 <= i < |us|
      ensures GetParameter(us)[6 + 2 * i] == "\t\t\t\t\tcase \"" + us[i].name + "\":"
              && GetParameter(us)[7 + 2 * i] == "\t\t\t\t\t\treturn (T)(object)uniform_" + us[i].name + ";"
    {
      GetParameterCaseAt(us, i);
    }
  }

  lemma UniformNameAt(className: string, us: seq<UniformItem>, i: nat)
    requires i < |us|
    ensures 19 + i < |Trailer(className, us)|
    ensures Trailer(className, us)[19 + i] == "\t\t\tyield return \"" + us[i].name + "\";"
  {
    EachOneLine(us, YieldNameLines, i);
    SectionAt(TrailerOpening(className), Each(us, YieldNameLines), TrailerClosing, i);
  }

  /** `GetUniformNames` yields the uniforms' names in list order, after the 19 fixed lines before it. */
  lemma UniformNamesInOrder(className: string, us: seq<UniformItem>)
    ensures |Trailer(className, us)| == 22 + |us|
    ensures forall i :: 0 <= i < |us| ==> Trailer(className, us)[19 + i] == "\t\t\tyield return \"" + us[i].name + "\";"
  {
    EachLength(us, YieldNameLines, 1);
    forall i | 0 <= i < |us| ensures Trailer(className, us)[19 + i] == "\t\t\tyield return \"" + us[i].name + "\";" {
      UniformNameAt(className, us, i);
    }
  }

  lemma LinesWithoutReload(w: WrapperInput, c: Commands)
    requires !w.recompileFromFile
    ensures WrapperLines(w, c)
            == LinesBeforeLoadShaders(w) + (CompileShaderOpening
               + CompileShaderRest(w.stages, w.uniforms, w.attributes)) + LinesAfterCompileShader(w, c)
  {}

  lemma LinesWithReload(w: WrapperInput, c: Commands)
    requires w.recompileFromFile
    ensures WrapperLines(w, c)
            == LinesBeforeLoadShaders(w) + LoadShadersBlock(w.stages) + (CompileShaderOpening + [LoadShadersCall]
               + CompileShaderRest(w.stages, w.uniforms, w.attributes)) + LinesAfterCompileShader(w, c)
  {}

  /**
   * Reloading from file adds the `LoadShaders` method after the embedded
   * sources and its call at the start of `CompileShader`; every other line is
   * the same in both modes. These two lemmas state the two modes over the
   * same surrounding lines.
   */
  lemma EmbeddedModeOmitsLoadShaders(w: WrapperInput, c: Commands)
    ensures WrapperLines(w.(recompileFromFile := false), c)
            == LinesBeforeLoadShaders(w) + (CompileShaderOpening
               + CompileShaderRest(w.stages, w.uniforms, w.attributes)) + LinesAfterCompileShader(w, c)
  {
    LinesWithoutReload(w.(recompileFromFile := false), c);
    OtherLinesIgnoreRecompile(w, c, false);
  }

  lemma RecompileModeAddsLoadShaders(w: WrapperInput, c: Commands)
    ensures WrapperLines(w.(recompileFromFile := true), c)
            == LinesBeforeLoadShaders(w) + LoadShadersBlock(w.stages) + (CompileShaderOpening + [LoadShadersCall]
               + CompileShaderRest(w.stages, w.uniforms, w.attributes)) + LinesAfterCompileShader(w, c)
  {
    LinesWithReload(w.(recompileFromFile := true), c);
    OtherLinesIgnoreRecompile(w, c, true);
  }

  /** The lines around `LoadShaders` and `CompileShader` do not depend on the mode. */
  lemma OtherLinesIgnoreRecompile(w: WrapperInput, c: Commands, recompile: bool)
    ensures LinesBeforeLoadShaders(w.(recompileFromFile := recompile)) == LinesBeforeLoadShaders(w)
    ensures LinesAfterCompileShader(w.(recompileFromFile := recompile), c) == LinesAfterCompileShader(w, c)
  {}

  lemma LocationCaseAt(us: seq<UniformItem>, attrs: seq<AttribItem>, k: nat, name: string)
    requires k < |us| + |attrs|
    requires name == if k < |us| then us[k].name else attrs[k - |us|].name
    ensures 5 + 2 * k < |GetParameterLocation(us, attrs)|
    ensures GetParameterLocation(us, attrs)[4 + 2 * k] == "\t\t\t\tcase \"" + name + "\":"
            && GetParameterLocation(us, attrs)[5 + 2 * k] == "\t\t\t\t\treturn __" + name + ";"
  {
    var names := ParameterNames(us, attrs);
    assert names[k] == name;
    assert forall x :: |LocationCase(x)| == 2;
    EachAt(names, LocationCase, 2, k, 0);
    EachAt(names, LocationCase, 2, k, 1);
    SectionAt(LocationOpening, Each(names, LocationCase), LocationClosing, 2 * k);
    SectionAt(LocationOpening, Each(names, LocationCase), LocationClosing, 2 * k + 1);
  }

  /**
   * `GetParameterLocation` has, after its four opening lines, a two-line
   * `case` returning the location field for each uniform and then for each
   * attribute, in list order.
   */
  lemma LocationCasesFollowUniformsThenAttributes(us: seq<UniformItem>, attrs: seq<AttribItem>)
    ensures |GetParameterLocation(us, attrs)| == 8 + 2 * (|us| + |attrs|)
    ensures forall i :: 0 <= i < |us| ==>
              GetParameterLocation(us, attrs)[4 + 2 * i] == "\t\t\t\tcase \"" + us[i].name + "\":"
              && GetParameterLocation(us, attrs)[5 + 2 * i] == "\t\t\t\t\treturn __" + us[i].name + ";"
    ensures forall j :: 0 <= j < |attrs| ==>
              GetParameterLocation(us, attrs)[4 + 2 * (|us| + j)] == "\t\t\t\tcase \"" + attrs[j].name + "\":"
              && GetParameterLocation(us, attrs)[5 + 2 * (|us| + j)] == "\t\t\t\t\treturn __" + attrs[j].name + ";"
  {
    EachLength(ParameterNames(us, attrs), LocationCase, 2);
    forall i | 0 <= i < |us|
      ensures GetParameterLocation(us, attrs)[4 + 2 * i] == "\t\t\t\tcase \"" + us[i].name + "\":"
              && GetParameterLocation(us, attrs)[5 + 2 * i] == "\t\t\t\t\treturn __" + us[i].name + ";"
    {
      LocationCaseAt(us, attrs, i, us[i].name);
    }
    forall j | 0 <= j < |attrs|
      ensures GetParameterLocation(us, attrs)[4 + 2 * (|us| + j)] == "\t\t\t\tcase \"" + attrs[j].name + "\":"
              && GetParameterLocation(us, attrs)[5 + 2 * (|us| + j)] == "\t\t\t\t\treturn __" + attrs[j].name + ";"
    {
      LocationCaseAt(us, attrs, |us| + j, attrs[j].name);
    }
  }

  /** A wrapper is produced exactly when every uniform's type is supported. */
  lemma WrapperSourceFailsOnRefusedTypes(w: WrapperInput)
    ensures WrapperSource(w).Success? <==> forall i :: 0 <= i < |w.uniforms| ==> Supported(w.uniforms[i])
    ensures WrapperSource(w).Failure? ==> exists i :: 0 <= i < |w.uniforms| && !Supported(w.uniforms[i])
                                                      && w.uniforms[i].tag == WrapperSource(w).error
  {}

  // ---------------------------------------------------------------------------
  // Where the `LoadShaders` method and its call appear
  // ---------------------------------------------------------------------------

  /** A line that is neither the `LoadShaders` signature nor its call. */
  predicate Plain(l: string) {
    l != LoadShadersCall && l != LoadShadersSignature
  }

  /**
   * What tells a line apart from the call and the signature, which are 17
   * and 35 characters long and have `L` and `r` as their fourth character.
   */
  predicate Unlike(l: string) {
    (|l| != 17 && |l| != 35) || (|l| >= 4 && l[3] != 'L' && l[3] != 'r')
  }

  predicate AllUnlike(ls: seq<string>) {
    forall l :: l in ls ==> Unlike(l)
  }

  lemma UnlikeIsPlain(ls: seq<string>)
    requires AllUnlike(ls)
    ensures forall l :: l in ls ==> Plain(l)
  {
    assert LoadShadersCall[3] == 'L' && LoadShadersSignature[3] == 'r';
  }

  lemma {:induction false} EachUnlike<T>(xs: seq<T>, f: T -> seq<string>)
    requires forall i :: 0 <= i < |xs| ==> AllUnlike(f(xs[i]))
    ensures AllUnlike(Each(xs, f))
  {
    if xs != [] {
      EachUnlike(xs[..|xs| - 1], f);
    }
  }

  lemma HeaderUnlike(ns: string, className: string)
    ensures AllUnlike(Header(ns, className))
  {
    assert ("namespace " + ns)[3] == 'e';
    assert ("\tpublic class " + className + " : global::ShaderRuntime.GLShader")[3] == 'b';
  }

  lemma UniformLinesUnlike(u: UniformItem)
    ensures AllUnlike(UniformFieldLines(u)) && AllUnlike(UniformLocationLines(u))
    ensures AllUnlike(SetParameterCase(u)) && AllUnlike(GetParameterCase(u)) && AllUnlike(YieldNameLines(u))
  {
    assert UniformFieldLines(u)[0][3] == 'u' && UniformFieldLines(u)[1][3] == 'u';
    assert UniformLocationLines(u)[0][3] == '_';
    assert SetParameterCase(u)[0][3] == '\t' && SetParameterCase(u)[1][3] == '\t' && SetParameterCase(u)[2][3] == '\t';
    assert GetParameterCase(u)[0][3] == '\t' && GetParameterCase(u)[1][3] == '\t';
    assert YieldNameLines(u)[0][3] == 'y';
  }

  lemma AttributeLinesUnlike(a: AttribItem)
    ensures AllUnlike(AttribFieldLines(a)) && AllUnlike(AttribLocationLines(a)) && AllUnlike(EnableAttribLines(a))
  {
    assert AttribFieldLines(a)[0][3] == 'u';
    assert AttribLocationLines(a)[0][3] == '_';
    assert EnableAttribLines(a)[0][3] == 'G';
  }

  lemma SourceConstantUnlike(st: StageItem)
    ensures AllUnlike(SourceConstantLines(st))
  {
    assert |SourceConstant(st)| >= 36;
  }

  lemma StageLinesUnlike(st: StageItem)
    ensures AllUnlike(StageCompileLines(st)) && AllUnlike(StageReleaseLines(st))
  {
    var c, r := StageCompileLines(st), StageReleaseLines(st);
    assert c[0][3] == 'i' && c[1][3] == 'G' && c[2][3] == 'G' && c[3][3] == 'G';
    assert r[0][3] == 'G' && r[1][3] == 'G';
  }

  lemma FieldsUnlike(us: seq<UniformItem>, attrs: seq<AttribItem>)
    ensures AllUnlike(Fields(us, attrs))
  {
    forall i | 0 <= i < |us| ensures AllUnlike(UniformFieldLines(us[i])) {
      UniformLinesUnlike(us[i]);
    }
    forall j | 0 <= j < |attrs| ensures AllUnlike(AttribFieldLines(attrs[j])) {
      AttributeLinesUnlike(attrs[j]);
    }
    EachUnlike(us, UniformFieldLines);
    EachUnlike(attrs, AttribFieldLines);
  }

  lemma SourceConstantsUnlike(stages: seq<StageItem>)
    ensures AllUnlike(SourceConstants(stages))
  {
    forall k | 0 <= k < |stages| ensures AllUnlike(SourceConstantLines(stages[k])) {
      SourceConstantUnlike(stages[k]);
    }
    EachUnlike(stages, SourceConstantLines);
  }

  lemma CompileShaderUnlike(stages: seq<StageItem>, us: seq<UniformItem>, attrs: seq<AttribItem>)
    ensures AllUnlike(CompileShaderOpening + CompileShaderRest(stages, us, attrs))
  {
    forall k | 0 <= k < |stages| ensures AllUnlike(StageCompileLines(stages[k])) && AllUnlike(StageReleaseLines(stages[k])) {
      StageLinesUnlike(stages[k]);
    }
    forall i | 0 <= i < |us| ensures AllUnlike(UniformLocationLines(us[i])) {
      UniformLinesUnlike(us[i]);
    }
    forall j | 0 <= j < |attrs| ensures AllUnlike(AttribLocationLines(attrs[j])) {
      AttributeLinesUnlike(attrs[j]);
    }
    EachUnlike(stages, StageCompileLines);
    EachUnlike(stages, StageReleaseLines);
    EachUnlike(us, UniformLocationLines);
    EachUnlike(attrs, AttribLocationLines);
  }

  lemma CompileMethodsUnlike()
    ensures AllUnlike(CompileMethods())
  {
    assert "\t\t\tProgramID = 0;"[3] == 'P';
  }

  lemma SetParameterUnlike(us: seq<UniformItem>)
    ensures AllUnlike(SetParameter(us))
  {
    forall i | 0 <= i < |us| ensures AllUnlike(SetParameterCase(us[i])) {
      UniformLinesUnlike(us[i]);
    }
    EachUnlike(us, SetParameterCase);
  }

  lemma GetParameterUnlike(us: seq<UniformItem>)
    ensures AllUnlike(GetParameter(us))
  {
    forall i | 0 <= i < |us| ensures AllUnlike(GetParameterCase(us[i])) {
      UniformLinesUnlike(us[i]);
    }
    EachUnlike(us, GetParameterCase);
  }

  lemma GetParameterLocationUnlike(us: seq<UniformItem>, attrs: seq<AttribItem>)
    ensures AllUnlike(GetParameterLocation(us, attrs))
  {
    var names := ParameterNames(us, attrs);
    forall k | 0 <= k < |names| ensures AllUnlike(LocationCase(names[k])) {
      assert LocationCase(names[k])[0][3] == '\t' && LocationCase(names[k])[1][3] == '\t';
    }
    EachUnlike(names, LocationCase);
  }

  /** A command line the first loop builds: empty, or a call through `GL`. */
  predicate EmptyOrGL(cmd: string) {
    cmd == "" || cmd[0] == 'G'
  }

  lemma {:induction false} CommandsAreEmptyOrGL(us: seq<UniformItem>)
    ensures forall cmd :: cmd in UniformCommands(us).init ==> EmptyOrGL(cmd)
    ensures forall cmd :: cmd in UniformCommands(us).draw ==> EmptyOrGL(cmd)
  {
    if us != [] {
      CommandsAreEmptyOrGL(us[..|us| - 1]);
      var u := us[|us| - 1];
      var n := u.name;
      assert ("GL.ActiveTexture(" + TextureUnitMember + DecimalString(TextureCount(us[..|us| - 1])) + ");")[0] == 'G';
      assert ("GL.BindTexture(uniform_" + n + ".Target, uniform_" + n + ".TextureID);")[0] == 'G';
      assert ("GL.Uniform1(__" + n + ", " + DecimalString(TextureCount(us[..|us| - 1])) + ");")[0] == 'G';
      assert EmptyOrGL(GetDrawCommand(u.tag, n)) by {
        forall a: string ensures UniformCall(a, n)[0] == 'G' && UniformMatrixCall(a, n)[0] == 'G' {
          assert ("GL.Uniform" + a + "(__" + n + ", uniform_" + n + ");")[0] == 'G';
          assert ("GL.UniformMatrix" + a + "(__" + n + ", TransposeMatrix, ref uniform_" + n + ");")[0] == 'G';
        }
      }
    }
  }

  lemma CommandSectionsUnlike(c: Commands, attrs: seq<AttribItem>)
    requires forall cmd :: cmd in c.init ==> EmptyOrGL(cmd)
    requires forall cmd :: cmd in c.draw ==> EmptyOrGL(cmd)
    ensures AllUnlike(PassUniforms(c.draw)) && AllUnlike(UseShader(c.init, attrs))
  {
    forall k | 0 <= k < |c.draw| ensures AllUnlike(Indented(c.draw[k])) {
      assert c.draw[k] in c.draw;
      if c.draw[k] != "" { assert Indented(c.draw[k])[0][3] == 'G'; }
    }
    forall k | 0 <= k < |c.init| ensures AllUnlike(Indented(c.init[k])) {
      assert c.init[k] in c.init;
      if c.init[k] != "" { assert Indented(c.init[k])[0][3] == 'G'; }
    }
    forall j | 0 <= j < |attrs| ensures AllUnlike(EnableAttribLines(attrs[j])) {
      AttributeLinesUnlike(attrs[j]);
    }
    EachUnlike(c.draw, Indented);
    EachUnlike(c.init, Indented);
    EachUnlike(attrs, EnableAttribLines);
  }

  lemma TrailerUnlike(className: string, us: seq<UniformItem>)
    ensures AllUnlike(Trailer(className, us))
  {
    assert |NotInitializedPrefix + className + NotInitializedSuffix| >= 36;
    forall i | 0 <= i < |us| ensures AllUnlike(YieldNameLines(us[i])) {
      UniformLinesUnlike(us[i]);
    }
    EachUnlike(us, YieldNameLines);
  }

  lemma LinesBeforeLoadShadersUnlike(w: WrapperInput)
    ensures AllUnlike(LinesBeforeLoadShaders(w))
  {
    HeaderUnlike(w.namespace, w.shaderName);
    FieldsUnlike(w.uniforms, w.attributes);
    SourceConstantsUnlike(w.stages);
  }

  lemma LinesAfterCompileShaderUnlike(w: WrapperInput, c: Commands)
    requires forall cmd :: cmd in c.init ==> EmptyOrGL(cmd)
    requires forall cmd :: cmd in c.draw ==> EmptyOrGL(cmd)
    ensures AllUnlike(LinesAfterCompileShader(w, c))
  {
    CompileMethodsUnlike();
    SetParameterUnlike(w.uniforms);
    GetParameterUnlike(w.uniforms);
    GetParameterLocationUnlike(w.uniforms, w.attributes);
    CommandSectionsUnlike(c, w.attributes);
    TrailerUnlike(w.shaderName, w.uniforms);
  }

  /** With reloading, `LoadShaders` is declared after the lines before it and called first thing in `CompileShader`. */
  lemma ReloadingDeclaresAndCalls(before: seq<string>, stages: seq<StageItem>, rest: seq<string>, after: seq<string>)
    ensures var lines := before + LoadShadersBlock(stages) + (CompileShaderOpening + [LoadShadersCall] + rest) + after;
            LoadShadersSignature in lines && LoadShadersCall in lines
  {
    var block := LoadShadersBlock(stages);
    var compile := CompileShaderOpening + [LoadShadersCall] + rest;
    assert block[0] == LoadShadersSignature;
    assert LoadShadersSignature in before + block;
    assert compile[2] == LoadShadersCall;
    assert LoadShadersCall in compile;
  }

  /**
   * The wrapper has a `LoadShaders` method, and calls it from
   * `CompileShader`, exactly when it is generated to reload from file.
   */
  lemma LoadShadersOnlyWhenReloading(w: WrapperInput)
    ensures WrapperSource(w).Success? ==> (LoadShadersSignature in WrapperSource(w).value <==> w.recompileFromFile)
    ensures WrapperSource(w).Success? ==> (LoadShadersCall in WrapperSource(w).value <==> w.recompileFromFile)
  {
    if WrapperSource(w).Success? {
      var c := UniformCommands(w.uniforms);
      var before, rest, after := LinesBeforeLoadShaders(w), CompileShaderRest(w.stages, w.uniforms, w.attributes), LinesAfterCompileShader(w, c);
      if w.recompileFromFile {
        ReloadingDeclaresAndCalls(before, w.stages, rest, after);
      } else {
        CommandsAreEmptyOrGL(w.uniforms);
        LinesBeforeLoadShadersUnlike(w);
        CompileShaderUnlike(w.stages, w.uniforms, w.attributes);
        LinesAfterCompileShaderUnlike(w, c);
        UnlikeIsPlain(before + (CompileShaderOpening + rest) + after);
      }
    }
  }
}
