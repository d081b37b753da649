/**
 * The trial compile the generator makes before writing anything: every
 * stage is compiled and attached, the program is linked, and on success the
 * active attributes and uniforms are read back. The graphics API's answers
 * are inputs.
 */
module StageCompiler {
  import opened Strings
  import opened ShaderItems

  /** A stage's compile status (0 for failure) and info log. */
  datatype CompileResult = CompileResult(status: int, infoLog: string)

  /** The program's link status and info log, and its active attributes and uniforms by index. */
  datatype LinkResult = LinkResult(status: int, infoLog: string, attributes: seq<AttribItem>, uniforms: seq<UniformItem>)

  /** What the graphics API answers: compiling a stage item, and linking the program. */
  datatype GLResults = GLResults(compile: StageItem -> CompileResult, link: LinkResult)

  const MixedComputeMessage := "Error: Compute shaders cannot be compiled with other shader types."
  const CompileFailedMessage := "Shader failed to compile. Exiting."

  /** The stage's log with every `0(` (a source-string number) turned into `path(`. */
  function RewriteLog(infoLog: string, path: string): string {
    ReplaceAll(infoLog, "0(", path + "(")
  }

  function StageFailedMessage(item: StageItem, infoLog: string): string {
    "Shader Failed to compile. Info log: \n" + RewriteLog(infoLog, item.path)
  }

  function LinkFailedMessage(infoLog: string): string {
    "Shader failed to link. Info log: \n" + infoLog
  }

  /** The variables of the stage loop once it has run (or been left early). */
  datatype Scan = Scan(isCompute: bool, failed: bool, rejected: bool, compiled: nat, messages: seq<string>)

  /**
   * The stage loop over `stages`: once a compute stage has been seen, any
   * other stage ends the loop with the mixing error; otherwise each stage is
   * compiled, and a zero status records its rewritten log and sets `failed`.
   */
  function ScanStages(stages: seq<StageItem>, gl: GLResults): Scan {
    if stages == [] then Scan(false, false, false, 0, [])
    else
      var sc := ScanStages(stages[..|stages| - 1], gl);
      var item := stages[|stages| - 1];
      if sc.rejected then sc
      else
        var isCompute := sc.isCompute || item.stage == Compute;
        if isCompute && item.stage != Compute then
          sc.(isCompute := isCompute, rejected := true, messages := sc.messages + [MixedComputeMessage])
        else
          var cr := gl.compile(item);
          Scan(isCompute, sc.failed || cr.status == 0, false, sc.compiled + 1,
               sc.messages + (if cr.status == 0 then [StageFailedMessage(item, cr.infoLog)] else []))
  }

  /** What `TestCompile` returns, whether it linked, what it printed, and what it read back. */
  datatype Outcome = Outcome(passed: bool, linked: bool, messages: seq<string>,
                             attributes: seq<AttribItem>, uniforms: seq<UniformItem>)

  function TestCompileSpec(stages: seq<StageItem>, gl: GLResults): Outcome {
    var sc := ScanStages(stages, gl);
    if sc.rejected then Outcome(false, false, sc.messages, [], [])
    else if sc.failed then Outcome(false, true, sc.messages + [CompileFailedMessage], [], [])
    else if gl.link.status == 0 then Outcome(false, true, sc.messages + [LinkFailedMessage(gl.link.infoLog)], [], [])
    else Outcome(true, true, sc.messages, gl.link.attributes, gl.link.uniforms)
  }

  // ---------------------------------------------------------------------------
  // Independent characterisations
  // ---------------------------------------------------------------------------

  /** Some stage other than a compute stage comes after a compute stage. */
  predicate MixViolation(stages: seq<StageItem>) {
    exists i, j :: 0 <= i < j < |stages| && stages[i].stage == Compute && stages[j].stage != Compute
  }

  predicate HasCompute(stages: seq<StageItem>) {
    exists i :: 0 <= i < |stages| && stages[i].stage == Compute
  }

  predicate AllCompiled(stages: seq<StageItem>, gl: GLResults) {
    forall i :: 0 <= i < |stages| ==> gl.compile(stages[i]).status != 0
  }

  /**
   * The compute check is sticky and depends on order: the loop is left
   * early exactly when a non-compute stage follows a compute stage. Before
   * that, every stage is compiled, and `failed` says whether one of them
   * failed.
   */
  lemma {:induction false} ScanCharacterised(stages: seq<StageItem>, gl: GLResults)
    ensures ScanStages(stages, gl).rejected <==> MixViolation(stages)
    ensures !MixViolation(stages) ==>
              ScanStages(stages, gl).isCompute == HasCompute(stages)
              && ScanStages(stages, gl).compiled == |stages|
              && (ScanStages(stages, gl).failed <==> !AllCompiled(stages, gl))
  {
    if stages != [] {
      var front := stages[..|stages| - 1];
      var item := stages[|stages| - 1];
      ScanCharacterised(front, gl);
      var sc := ScanStages(front, gl);
      if MixViolation(front) {
        var i, j :| 0 <= i < j < |front| && front[i].stage == Compute && front[j].stage != Compute;
        assert stages[i] == front[i] && stages[j] == front[j];
      } else if sc.isCompute && item.stage != Compute {
        var i :| 0 <= i < |front| && front[i].stage == Compute;
        assert stages[i] == front[i];
        assert MixViolation(stages) by {
          assert stages[|stages| - 1].stage != Compute;
        }
      } else {
        assert !MixViolation(stages);
        assert HasCompute(stages) <==> HasCompute(front) || item.stage == Compute;
        assert AllCompiled(stages, gl) <==> AllCompiled(front, gl) && gl.compile(item).status != 0 by {
          if AllCompiled(front, gl) && gl.compile(item).status != 0 {
            forall i | 0 <= i < |stages| ensures gl.compile(stages[i]).status != 0 {
              if i < |front| {
                assert stages[i] == front[i];
              }
            }
          }
          if AllCompiled(stages, gl) {
            forall i | 0 <= i < |front| ensures gl.compile(front[i]).status != 0 {
              assert front[i] == stages[i];
            }
          }
        }
      }
    }
  }

  /**
   * `TestCompile` succeeds exactly when no non-compute stage follows a
   * compute stage, every stage compiles and the program links; it links
   * exactly when the compute check passes, even after a failed stage.
   */
  lemma TestCompileCharacterised(stages: seq<StageItem>, gl: GLResults)
    ensures TestCompileSpec(stages, gl).passed
            <==> !MixViolation(stages) && AllCompiled(stages, gl) && gl.link.status != 0
    ensures TestCompileSpec(stages, gl).linked <==> !MixViolation(stages)
  {
    ScanCharacterised(stages, gl);
  }

  /** On success the attributes and the uniforms are read back in index order. */
  lemma PassingReadsBackProgramInterface(stages: seq<StageItem>, gl: GLResults)
    requires TestCompileSpec(stages, gl).passed
    ensures TestCompileSpec(stages, gl).attributes == gl.link.attributes
    ensures TestCompileSpec(stages, gl).uniforms == gl.link.uniforms
  {}

  /** A compute stage placed after the others passes the check; placed before them it does not. */
  lemma ComputeCheckIsOrderSensitive(a: StageItem, c: StageItem, gl: GLResults)
    requires a.stage == Vertex && c.stage == Compute
    ensures !ScanStages([a, c], gl).rejected
    ensures ScanStages([c, a], gl).rejected
  {
    assert [a, c][..1] == [a] && [a][..0] == [];
    assert [c, a][..1] == [c] && [c][..0] == [];
    assert !ScanStages([a], gl).isCompute && !ScanStages([a], gl).rejected;
    assert ScanStages([c], gl).isCompute && !ScanStages([c], gl).rejected;
  }
}
