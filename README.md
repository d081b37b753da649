# GLSL wrapper generator, modelled in Dafny

`ShaderCompiler` reads GLSL stage files named on its command line, compiles
and links them once to check them and to learn the program's active
uniforms and attributes, and writes a C# class that wraps the shader: a
backing field per uniform, the stage sources embedded as string constants
(or reloaded from disk), `CompileShader`, `SetParameter`/`GetParameter`
switches, and `UseShader`/`PassUniforms`, which bind textures to consecutive
texture units. The generated classes share one program object between all
of their instances through a reference counter, `ShaderRuntime.Utility.Counter`.

The model covers:

- the type switches `GetUniformType`, `GetDrawCommand` and
  `ToString(UniformType)` (module `UniformTypes`);
- `TrimMatchingQuotes` and `SplitWhere` (module `Extensions`; `SplitWhere`
  is a `method` with the source's `prev`/`i` loop), and `SplitCommandLine`
  with its quote/escape closure as a left-to-right fold (module `CommandLine`);
- argument classification in `ParseArgs` and the `CreateContext` version
  clamp and check (module `Arguments`);
- the trial compile `TestCompile`, with the graphics API's answers as inputs
  (module `StageCompiler`);
- the lines `WriteToFile` produces, and the texture-unit counter behind
  them (module `WrapperEmitter`);
- the class `Program` that holds `Info`, `Uniforms` and `Attributes` as
  fields and updates them in `ParseArgs`, `TestCompile` and `WriteToFile`.
  Each of these is a method with the source's loops, proved equal to the
  specification functions above (module `ShaderCompiler`);
- `Counter` as a class over a wrapping 32-bit count (module `Utility`);
- the run-time lifecycle of a generated wrapper's static `ProgramID` and
  `Ctr`, built on `Counter` (module `GeneratedShader`).

Where the code and its description disagree, the model follows the code:

- The compute-shader check in `TestCompile` is sticky and depends on order.
  A non-compute stage after a compute stage is refused. `[Vertex, Compute]`
  passes.
- `TestCompile` links the program even after a stage failed to compile.
- `SplitWhere` ends every non-empty input with an empty piece. So
  `SplitCommandLine` fails (`IndexOutOfRangeException` in
  `TrimMatchingQuotes`) on every non-empty command line. Nothing in
  `Program.cs` calls it.
- The generated `Recompile` passes the program to `GL.DeleteShader`, not
  `GL.DeleteProgram`. It also takes a second reference on the counter.
- `-out=` with an empty value is not skipped like other bad arguments.
  Trimming the quotes of `""` reads past its end, and the
  `IndexOutOfRangeException` is not one the loop catches. So it aborts the
  whole parse (`Arguments.EmptyOutputFileAborts`).
- `TestCompile` deletes its trial program only on success (line 832). The
  early returns at lines 747, 784 and 796 leave it allocated.
- An embedded source constant is not always a valid C# literal. A `"` or `\`
  in the stage text ends or changes the literal. U+0085, U+2028 and U+2029
  are line terminators in C# but are not escaped.

## Model

| member | source | states |
|---|---|---|
| UniformTypes.SamplerTagsAreTextures | ShaderCompiler/Program.cs:404-415 | every sampler tag (float, int and unsigned-int samplers of every shape) maps to `Texture` |
| UniformTypes.TexturesComeFromSamplerTags | ShaderCompiler/Program.cs:318-489 | only sampler tags map to `Texture` |
| UniformTypes.UnsupportedTagsAreRefused | ShaderCompiler/Program.cs:358-403 | `GetUniformType` throws exactly for images, atomic counters, int and uint vectors and every tag reaching `default` |
| UniformTypes.NativeTagInvertsGetUniformType | ShaderCompiler/Program.cs:322-357 | each non-texture logical type comes from one native tag only, so distinct scalar, vector and matrix tags map to distinct types |
| UniformTypes.GetUniformTypeInvertsNativeTag | ShaderCompiler/Program.cs:380-381 | every non-texture logical type is reached by some tag, and `GetUniformType` maps that tag back to it |
| UniformTypes.DrawCommandOfScalarOrVector | ShaderCompiler/Program.cs:495-515 | scalars and vectors are passed with `GL.Uniform<K>(__n, uniform_n);`, where K is the component count (1 for scalars) |
| UniformTypes.DrawCommandOfMatrix | ShaderCompiler/Program.cs:516-533 | matrices are passed with `GL.UniformMatrix<R[xC]>(__n, TransposeMatrix, ref uniform_n);`, with the suffix of the matrix's dimensions |
| UniformTypes.NoDrawCommandForTexturesOrRefusedTags | ShaderCompiler/Program.cs:534-662 | sampler tags and refused tags get the empty draw command |
| UniformTypes.DrawCommandOfSupportedTag | ShaderCompiler/Program.cs:491-533 | whenever a tag maps to a non-texture type, its draw command is non-empty and is the one that type needs |
| UniformTypes.TypeNameOfScalar | ShaderCompiler/Program.cs:666-674 | bool, double, float, int and uint fields use the bare C# keyword |
| UniformTypes.TypeNameOfVector | ShaderCompiler/Program.cs:664-689 | `Vector2d` is bare; every other vector is `global::OpenTK.Vector<N>[d]` |
| UniformTypes.TypeNameOfMatrix | ShaderCompiler/Program.cs:675-689 | matrix fields are `global::OpenTK.Matrix<R[xC]>` |
| UniformTypes.TypeNameOfTexture | ShaderCompiler/Program.cs:690-691 | texture fields are `global::ShaderRuntime.Texture` |
| ShaderItems.StageNamesDistinct | ShaderCompiler/Program.cs:109-117 | distinct stages get distinct identifiers in the generated class |
| Strings.DecimalRoundTrip | ShaderCompiler/Program.cs:845-847 | the decimal text of a texture unit reads back as that number |
| Strings.DecimalStringInjective | ShaderCompiler/Program.cs:845-847 | distinct units are written as distinct texts |
| Strings.IntString | ShaderCompiler/Program.cs:149 | the text starts with `-` exactly when the number is negative, and the rest is all digits whose decimal value is the number's magnitude |
| Strings.Trim | ShaderCompiler/Program.cs:719 | the result is the slice of the text left between a white-space-only start and a white-space-only end; it has no white space at either end, and it is empty exactly when the text is all white space |
| Strings.EndsWithIgnoresCase | ShaderCompiler/Program.cs:215-251 | a case-insensitive suffix test gives the same answer on the lower-cased text |
| Strings.ReplaceAll | ShaderCompiler/Program.cs:764 | a text without the pattern is left unchanged |
| Strings.EscapeLineEndings | ShaderCompiler/Program.cs:918 | the escaped text contains no CR or LF, a text without line endings is unchanged, and decoding `\n` gives back the text with its line endings normalised |
| Extensions.SplitWhere | ShaderCompiler/Program.cs:20-41 | the loop returns a piece before each split point, each starting at the previous split point, and then the empty tail piece |
| Extensions.CutsJoin | ShaderCompiler/Program.cs:28-34 | the pieces before the tail join up to exactly the text before the last split point |
| Extensions.SplitWhereDropsTail | ShaderCompiler/Program.cs:37-40 | the pieces join to the text before the last split point, so the rest is lost; there is one piece per split point plus one, and for non-empty text the last piece is `""` |
| Extensions.CutsStartAtDelims | ShaderCompiler/Program.cs:30-33 | each piece after the first starts with the split character and is non-empty |
| Extensions.TrimMatchingQuotes | ShaderCompiler/Program.cs:42-49 | fails exactly on `""` and on a lone `"`; leaves unquoted text unchanged; never lengthens |
| Extensions.TrimMatchingQuotesRoundTrip | ShaderCompiler/Program.cs:44-47 | quoting a text and trimming the quotes gives the text back |
| CommandLine.SplitPointsAreWhiteSpace | ShaderCompiler/Program.cs:716 | the closure splits only at white space |
| CommandLine.NoSplitInsideQuotes | ShaderCompiler/Program.cs:709-716 | no character inside quotes is a split point |
| CommandLine.CleaningFailsAtAnEmptyLastPiece | ShaderCompiler/Program.cs:719 | an empty piece makes the per-piece clean-up throw, and that exception escapes |
| CommandLine.SplitCommandLineFailsUnlessEmpty | ShaderCompiler/Program.cs:697-723 | splitting fails exactly on non-empty command lines; the empty command line gives no arguments |
| Arguments.LessIsStrictTotalOrder | ShaderCompiler/Program.cs:293 | version comparison is irreflexive, transitive and total |
| Arguments.ClampContextVersion | ShaderCompiler/Program.cs:293-294 | the requested version is at least 3.0 and at least the expected one, and it is one of the two |
| Arguments.ClampIsLeastUpperBound | ShaderCompiler/Program.cs:293-294 | any version that is at least 3.0 and at least the expected one is at least the requested version |
| Arguments.CreateContext | ShaderCompiler/Program.cs:290-311 | success exactly when the context is not older than the requested version, yielding that version; otherwise `GLVersionException` carries the context and requested versions |
| Arguments.ContextBelowMinimumIsRefused | ShaderCompiler/Program.cs:307-311 | a context older than 3.0 is always refused |
| Arguments.ContextAtLeastExpectedIsAccepted | ShaderCompiler/Program.cs:307-311 | a context at least 3.0 and at least the expected version is accepted |
| Arguments.NoArgumentsGiveDefaults | ShaderCompiler/Program.cs:145-150 | with no arguments: no recompile, no output file, name `__Shader<hash>`, namespace `Shaders`, context 3.0, no stages |
| Arguments.StageOfFileIgnoresCase | ShaderCompiler/Program.cs:215-251 | a file's stage comes from its extension regardless of letter case |
| Arguments.ApplyArg | ShaderCompiler/Program.cs:154-273 | an argument read without an exception gives the branch's new record; a caught exception (format, overflow, argument range, missing file) skips the argument and keeps the record; any other exception escapes, and a caught one never does |
| Arguments.OtherArgumentsKeepRecompileFlag | ShaderCompiler/Program.cs:160-167 | only `-r`, `/r`, `-s` and `/s` change the recompile flag |
| Arguments.LastRecompileFlagWins | ShaderCompiler/Program.cs:152-167 | after parsing, the recompile flag is what the last `-r`/`-s` asked for, off without one |
| Arguments.ApplyArgAppendsStages | ShaderCompiler/Program.cs:176-251 | an argument leaves the stages alone or appends exactly one |
| Arguments.StagesFollowArgumentOrder | ShaderCompiler/Program.cs:152-274 | there are at most as many stages as arguments, and the stages collected from a prefix of the arguments are a prefix of the final stages |
| Arguments.EmptyOutputFileAborts | ShaderCompiler/Program.cs:168-171 | `-out=` throws an uncaught `IndexOutOfRangeException` that ends parsing |
| Arguments.IgnoredArgumentsChangeNothing | ShaderCompiler/Program.cs:252-255 | a file of unknown extension leaves the parse state unchanged |
| Arguments.UnknownOptionsChangeNothing | ShaderCompiler/Program.cs:208-211 | an option matching none of the known forms leaves the parse state unchanged |
| Arguments.OptionPrefixesAgree | ShaderCompiler/Program.cs:156-158 | an option means the same after `-` as after `/`, and both read the text after the prefix as the option |
| Arguments.SkippedArgumentChangesNothing | ShaderCompiler/Program.cs:257-272 | deleting an argument whose reading raised a caught exception leaves the outcome of the whole parse unchanged |
| Arguments.SameRecordSameOutcome | ShaderCompiler/Program.cs:152-273 | two argument lists that parse to the same outcome still agree after the same further arguments |
| StageCompiler.ScanCharacterised | ShaderCompiler/Program.cs:734-784 | the stage loop ends early exactly when a non-compute stage follows a compute stage; otherwise it compiles every stage and fails exactly when a stage's status is 0 |
| StageCompiler.TestCompileCharacterised | ShaderCompiler/Program.cs:725-835 | the trial compile passes exactly when there is no mixing, every stage compiles and the link succeeds; it links exactly when there is no mixing, even after a failed stage |
| StageCompiler.PassingReadsBackProgramInterface | ShaderCompiler/Program.cs:801-830 | on success the attributes and uniforms read back are the program's, in index order |
| StageCompiler.ComputeCheckIsOrderSensitive | ShaderCompiler/Program.cs:740-748 | `[Vertex, Compute]` passes the mixing check and `[Compute, Vertex]` does not |
| WrapperEmitter.TextureCount | ShaderCompiler/Program.cs:838-856 | there are no more texture uniforms than uniforms |
| WrapperEmitter.CommandCounts | ShaderCompiler/Program.cs:838-856 | one draw command per uniform, and two use-time commands per texture uniform |
| WrapperEmitter.DrawCommandOfUniform | ShaderCompiler/Program.cs:843-854 | the i-th draw command is, for a texture, `GL.Uniform1` of its unit (the number of textures before it), and otherwise its type's draw call |
| WrapperEmitter.DrawCommandOfValueUniform | ShaderCompiler/Program.cs:852-854 | a supported non-texture uniform is passed with the draw call its logical type needs |
| WrapperEmitter.InitCommandsOfTexture | ShaderCompiler/Program.cs:845-846 | the k-th texture activates unit k at position 2k and binds its texture at 2k+1 |
| WrapperEmitter.TextureCountGrows | ShaderCompiler/Program.cs:849 | the counter never decreases along the list, and each texture adds one |
| WrapperEmitter.TextureUnitsIncrease | ShaderCompiler/Program.cs:838-856 | distinct texture uniforms get distinct units, increasing in list order |
| WrapperEmitter.TextureUnitsAreContiguous | ShaderCompiler/Program.cs:838-856 | the units activated are exactly 0 to N-1 for N textures, in order |
| WrapperEmitter.FirstUnsupported | ShaderCompiler/Program.cs:318-489 | reports nothing exactly when every uniform is supported; otherwise reports the tag of a refused uniform with only supported ones before it |
| WrapperEmitter.FirstUnsupportedIsFirstRefused | ShaderCompiler/Program.cs:838-856 | the refused tag reported is that of the first refused uniform |
| WrapperEmitter.EachLength | ShaderCompiler/Program.cs:899-914 | emitting k lines per element gives k lines per element in total |
| WrapperEmitter.EachOneLine | ShaderCompiler/Program.cs:915-930 | emitting one line per element puts element i's line at position i |
| WrapperEmitter.SourceConstantIsOneLine | ShaderCompiler/Program.cs:916-919 | an embedded source constant contains no CR or LF; for a stage text without a backslash, decoding the `\n` escapes gives the text with its line endings normalised |
| WrapperEmitter.SourceConstantPerStage | ShaderCompiler/Program.cs:915-919 | one source constant per stage, in stage order, whatever the mode |
| WrapperEmitter.LoadShadersLayout | ShaderCompiler/Program.cs:921-932 | `LoadShaders` is its signature and opening brace, then for each stage in order the line reloading that stage's source from its path, then the closing brace |
| WrapperEmitter.LoadShadersOnlyWhenReloading | ShaderCompiler/Program.cs:921-939 | the generated source declares `LoadShaders` exactly when it reloads from file, and contains the call `LoadShaders();` exactly then |
| WrapperEmitter.CommandsAreEmptyOrGL | ShaderCompiler/Program.cs:838-856 | every texture-unit and draw command is empty or a `GL.` call |
| WrapperEmitter.EmbeddedModeOmitsLoadShaders | ShaderCompiler/Program.cs:921-939 | switching to embedded mode removes only `LoadShaders` and its call |
| WrapperEmitter.RecompileModeAddsLoadShaders | ShaderCompiler/Program.cs:921-939 | switching to reload mode adds only `LoadShaders` and its call, around unchanged lines |
| WrapperEmitter.OtherLinesIgnoreRecompile | ShaderCompiler/Program.cs:858-919 | the lines before `LoadShaders` and after `CompileShader` do not depend on the mode |
| WrapperEmitter.LocationCasesFollowUniformsThenAttributes | ShaderCompiler/Program.cs:1034-1056 | `GetParameterLocation` has four opening lines, then for each uniform and then each attribute, in list order, a `case` on its name returning its location field, then four closing lines |
| WrapperEmitter.FieldsFollowUniformsThenAttributes | ShaderCompiler/Program.cs:899-914 | after the three fixed fields come a location field and a value field of the uniform's C# type per uniform, then a location field per attribute, in list order |
| WrapperEmitter.SetParameterCasesFollowUniforms | ShaderCompiler/Program.cs:985-1009 | `SetParameter` has six opening lines, then per uniform in list order a `case` on its name, a cast assignment to its field and a `break`, then nine closing lines |
| WrapperEmitter.GetParameterCasesFollowUniforms | ShaderCompiler/Program.cs:1010-1033 | `GetParameter` has six opening lines, then per uniform in list order a `case` on its name returning its field cast to `T`, then nine closing lines |
| WrapperEmitter.UniformNamesInOrder | ShaderCompiler/Program.cs:1108-1116 | `GetUniformNames` yields every uniform's name, in list order, after the 19 fixed lines of the trailer that come first (`GetShaderID`, `Dispose`, `IsSupported` and its own opening) |
| WrapperEmitter.WrapperSourceFailsOnRefusedTypes | ShaderCompiler/Program.cs:836-856 | a wrapper is produced exactly when every uniform type is supported; otherwise the failure names a refused uniform's tag |
| ShaderCompiler.Program.constructor | ShaderCompiler/Program.cs:67-108 | a new program has a default `Info` and no uniforms or attributes |
| ShaderCompiler.Program.ParseArgs | ShaderCompiler/Program.cs:143-274 | the loop leaves `Info` as the argument fold gives it, or returns the escaping exception with `Info` holding the record parsed from the arguments before the one that raised it; uniforms and attributes are untouched |
| ShaderCompiler.Program.CompileStages | ShaderCompiler/Program.cs:734-784 | the stage loop, with its early exit, computes the stage scan |
| ShaderCompiler.Program.TestCompile | ShaderCompiler/Program.cs:725-835 | result and messages are the trial compile's; on success the read-back attributes and uniforms are appended to the fields; `Info` is untouched |
| ShaderCompiler.Program.BuildCommands | ShaderCompiler/Program.cs:838-856 | the counter loop builds the texture-unit commands, or stops at the first refused uniform type |
| ShaderCompiler.Program.WriteToFile | ShaderCompiler/Program.cs:836-1121 | returns the wrapper for the program's fields, or the first refused uniform type |
| ShaderCompiler.Program.SplitMarks | ShaderCompiler/Program.cs:702-717 | the closure, threaded through the characters, gives the split marks of the fold |
| ShaderCompiler.Program.CleanArguments | ShaderCompiler/Program.cs:719-721 | trims, unquotes and unescapes each piece in order, drops empty results, and stops at the first exception |
| ShaderCompiler.Program.SplitCommandLine | ShaderCompiler/Program.cs:697-723 | the method computes the fold-based split |
| ShaderCompiler.ParseFailureIsFinal | ShaderCompiler/Program.cs:152-274 | once an exception escapes, later arguments change nothing |
| ShaderCompiler.RejectionIsFinal | ShaderCompiler/Program.cs:744-748 | once mixing is detected, later stages change nothing |
| ShaderCompiler.CommandsExtend | ShaderCompiler/Program.cs:841-855 | one more uniform appends its own commands, and the counter grows exactly for a texture |
| ShaderCompiler.CleaningFailureIsFinal | ShaderCompiler/Program.cs:719 | once a piece throws, later pieces change nothing |
| Utility.Successor | ShaderRuntime/Counter.cs:56-59 | increment is addition modulo 2^32 |
| Utility.Predecessor | ShaderRuntime/Counter.cs:63-67 | decrement is subtraction modulo 2^32 |
| Utility.PredecessorUndoesSuccessor | ShaderRuntime/Counter.cs:56-67 | a decrement undoes an increment and vice versa, wrap-around included |
| Utility.Counter.constructor | ShaderRuntime/Counter.cs:16-51 | a new counter is at 0 and holds the given destructor |
| Utility.Counter.SetDestructor | ShaderRuntime/Counter.cs:32-42 | setting the destructor replaces it and keeps the count |
| Utility.Counter.Increment | ShaderRuntime/Counter.cs:56-59 | the count goes up by one (mod 2^32), the destructor does not run, and it stays the same |
| Utility.Counter.Decrement | ShaderRuntime/Counter.cs:63-67 | the count goes down by one (mod 2^32); the destructor runs, and is returned, exactly when the new count is 0 |
| Utility.Counter.PlusPlus | ShaderRuntime/Counter.cs:74-78 | `++` increments the counter and returns the same instance |
| Utility.Counter.MinusMinus | ShaderRuntime/Counter.cs:84-88 | `--` decrements the counter, runs the destructor at 0, and returns the same instance |
| Utility.RunConcat | ShaderRuntime/Counter.cs:56-67 | running two sequences of operations is running the first and then the second from where it left off |
| Utility.IncrementsAddUp | ShaderRuntime/Counter.cs:56-59 | n increments without wrapping add n and never run the destructor |
| Utility.DecrementsToZero | ShaderRuntime/Counter.cs:63-67 | n decrements from n reach 0 and run the destructor only at the last one |
| Utility.BalancedUseFiresOnceAtTheEnd | ShaderRuntime/Counter.cs:56-67 | from 0, n increments then n decrements run the destructor exactly once, on the last decrement |
| Utility.DecrementAtZeroWraps | ShaderRuntime/Counter.cs:63-67 | decrementing 0 wraps to `uint.MaxValue` and does not run the destructor |
| Utility.IncrementAtMaxWraps | ShaderRuntime/Counter.cs:56-59 | incrementing `uint.MaxValue` wraps to 0 and does not run the destructor |
| GeneratedShader.ShaderID | ShaderCompiler/Program.cs:1085-1092 | `GetShaderID` returns the program exactly when there is one, and otherwise throws naming the class |
| GeneratedShader.WrapperStatics.constructor | ShaderCompiler/Program.cs:899-901 | the static state starts with no program and a counter at 0 holding the release delegate |
| GeneratedShader.WrapperStatics.RunRelease | ShaderCompiler/Program.cs:901 | the delegate deletes the program and resets `ProgramID` to 0 |
| GeneratedShader.WrapperStatics.CompileShader | ShaderCompiler/Program.cs:934-940 | `CompileShader` creates the program and stores its name |
| GeneratedShader.WrapperStatics.Compile | ShaderCompiler/Program.cs:978-983 | the program is created only when `ProgramID` is 0, then the counter increments: the compile step of the lifecycle |
| GeneratedShader.WrapperStatics.Recompile | ShaderCompiler/Program.cs:971-976 | the program goes to `DeleteShader`, `ProgramID` is reset, and `Compile` runs: the recompile step |
| GeneratedShader.WrapperStatics.Dispose | ShaderCompiler/Program.cs:1093-1098 | the counter decrements, and at zero the program is deleted and `ProgramID` reset: the dispose step |
| GeneratedShader.WrapperStatics.GetShaderID | ShaderCompiler/Program.cs:1085-1092 | returns the current program, or the not-initialised exception |
| GeneratedShader.LifecycleConcat | ShaderCompiler/Program.cs:971-1098 | running two event sequences is running the first and then the second from where it left off |
| GeneratedShader.CompilesWhileLoadedOnlyCount | ShaderCompiler/Program.cs:978-983 | while a program exists, compiles only take references and make no program calls |
| GeneratedShader.DisposesReleaseAtTheLast | ShaderCompiler/Program.cs:1093-1098 | from n references, n disposes delete the program once, at the last, and return to the initial state |
| GeneratedShader.CompilesCreateOnce | ShaderCompiler/Program.cs:978-983 | from the initial state, n compiles create the program once, with the first name, and hold n references |
| GeneratedShader.SharedProgramLifecycle | ShaderCompiler/Program.cs:978-1098 | n compiles then n disposes create and delete the shared program exactly once each, returning to the initial state |
| GeneratedShader.RecompileKeepsAnExtraReference | ShaderCompiler/Program.cs:971-983 | compile, recompile and one dispose leave the new program alive with one reference; the old one only reaches `DeleteShader` |
| GeneratedShader.NoShaderIDOutsideTheLifecycle | ShaderCompiler/Program.cs:1085-1092 | `GetShaderID` fails before the first compile and after the last dispose |

## Left out

- Graphics API calls (`GL.CreateProgram`, `CreateShader`, `CompileShader`, `LinkProgram`, `GetActiveUniform`, `GetActiveAttrib`, the info logs): their results are inputs to `TestCompile` (`GLResults`). The names they return are truncated to a 512-character buffer; that is not modelled.
- `GameWindow` creation and `DestroyContext`: native resources. Only the version clamp and comparison of `CreateContext` are modelled, with the obtained context version as an input.
- Console output: the messages `TestCompile` prints are returned as a sequence. The other messages (help text, unknown argument, unknown stage, version report) are not modelled.
- File I/O: `File.ReadAllText` in `ParseArgs` is a host function that returns the text or an exception. `File.WriteAllLines` is left out, so `WriteToFile` returns the lines. A missing output path is not modelled.
- `args.GetHashCode()` is an input (`Host.argsHash`), because it depends on the runtime.
- `new Version(string)` parsing is a host function (`Host.parseVersion`), because the .NET parser is not part of this model.
- `Regex.Replace`: only the two concrete uses are modelled, as direct string functions. These are the `0(` rewrite of compile logs and the line-ending escape. General regular expressions and `$` substitutions are not.
- Texture names and other expressions in the emitted C# are kept as text. The generated class is not compiled or interpreted; only its static `ProgramID`/`Ctr` lifecycle is modelled (module `GeneratedShader`). Its `CompileShader` body is reduced to the `GL.CreateProgram` call.
- Static fields of the generated class are modelled as one `WrapperStatics` object that all instances share.
- `Compile`, `ProgramMain` and `Main`: glue around the modelled operations. One behaviour is not modelled: a `GLVersionException` makes the program return 0.
- `Info` fields that `new ArgInfo()` leaves `null` get placeholder values in `Program`'s constructor (`ShaderCompiler.Unparsed`): the strings are empty, `ContextVersion` is 0.0 and `Stages` is the empty list. Every modelled operation runs after `ParseArgs` has set them.
- `StartsWith` and `EndsWith(…, true, null)` compare by the current culture in .NET. The model compares ordinally, and its case-insensitive suffix test folds only the ASCII letters.
- `TestCompile`'s trial program object: the graphics API is not modelled, so the model does not track that the failure paths leave it allocated.
- WrapperEmitter.SourceConstantIsOneLine: the decoding round trip is stated only for stage texts without a backslash, and only the `\n` escape is decoded. A `"` or `\` in the text breaks the C# literal, and U+0085, U+2028 and U+2029 are left unescaped; neither is stated.
- ShaderRuntime's `Exceptions.cs`, `DynamicShaderObject.cs`, `Texture.cs` and `ShaderExtensions.cs` are not part of this model. The one exception the model needs, `ShaderNotInitializedException`, is a datatype.
- ShaderCompiler.Program.WriteToFile: the lines are given by the specification function `WrapperLines`, not built by a sequence of `Lines.Add` calls. Only the texture-unit loop is a loop.
- Strings.ReplaceAll: its contract states only that a text without the pattern is unchanged. The left-to-right, non-overlapping replacement is its definition.
- Strings.EscapeLineEndings: the decoding round trip is stated only for texts without a backslash, since the emitted literal leaves other escapes as they are.
