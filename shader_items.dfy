/**
 * The records the generator passes around: shader stages, the stage items
 * collected from the command line, and the active uniforms and attributes
 * reported by the linked program.
 */
module ShaderItems {
  import opened UniformTypes

  /** `Program.ShaderStage`, one value per programmable pipeline stage. */
  datatype ShaderStage = Vertex | Fragment | Geometry | TessEval | TessControl | Compute

  /** The stage's enum name, which the generated code uses as an identifier. */
  function StageName(s: ShaderStage): string {
    match s
    case Vertex => "Vertex"
    case Fragment => "Fragment"
    case Geometry => "Geometry"
    case TessEval => "TessEval"
    case TessControl => "TessControl"
    case Compute => "Compute"
  }

  /** The name of the graphics API's shader type the stage stands for. */
  function ShaderTypeName(s: ShaderStage): string {
    match s
    case Vertex => "VertexShader"
    case Fragment => "FragmentShader"
    case Geometry => "GeometryShader"
    case TessEval => "TessEvaluationShader"
    case TessControl => "TessControlShader"
    case Compute => "ComputeShader"
  }

  /** Distinct stages get distinct identifiers in the generated class. */
  lemma StageNamesDistinct(s: ShaderStage, t: ShaderStage)
    ensures StageName(s) == StageName(t) <==> s == t
  {}

  /** A stage to compile: the path it was named by, its stage, and its text. */
  datatype StageItem = StageItem(path: string, stage: ShaderStage, source: string)

  /** An active uniform: its native type tag and its name. */
  datatype UniformItem = UniformItem(tag: ActiveUniformType, name: string)

  /** An active attribute: its native type tag (never inspected) and its name. */
  datatype AttribItem = AttribItem(tag: int, name: string)
}
