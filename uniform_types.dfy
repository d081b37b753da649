/**
 * The type mapping at the heart of the generator: the graphics API's native
 * uniform-type tags (`ActiveUniformType`), the generator's own closed set of
 * logical types (`UniformType`), and the three switches that connect them:
 * `GetUniformType`, `GetDrawCommand` and `ToString(UniformType)`.
 */
module UniformTypes {
  import opened Wrappers
  import opened Strings

  /**
   * The native tags named in the switches of the generator. `Other` stands for
   * every tag the switches reach only through `default`.
   */
  datatype ActiveUniformType =
    // scalars
    | Bool | Double | Float | Int | UnsignedInt
    // vectors
    | BoolVec2 | BoolVec3 | BoolVec4
    | DoubleVec2 | DoubleVec3 | DoubleVec4
    | FloatVec2 | FloatVec3 | FloatVec4
    | IntVec2 | IntVec3 | IntVec4
    | UnsignedIntVec2 | UnsignedIntVec3 | UnsignedIntVec4
    // matrices
    | FloatMat2 | FloatMat2x3 | FloatMat2x4 | FloatMat3 | FloatMat3x2 | FloatMat3x4
    | FloatMat4 | FloatMat4x2 | FloatMat4x3
    // image units
    | Image1D | Image1DArray | Image2D | Image2DArray | Image2DMultisample
    | Image2DMultisampleArray | Image2DRect | Image3D | ImageBuffer | ImageCube
    | ImageCubeMapArray
    | IntImage1D | IntImage1DArray | IntImage2D | IntImage2DArray | IntImage2DMultisample
    | IntImage2DMultisampleArray | IntImage2DRect | IntImage3D | IntImageBuffer | IntImageCube
    | IntImageCubeMapArray
    | UnsignedIntImage1D | UnsignedIntImage1DArray | UnsignedIntImage2D
    | UnsignedIntImage2DArray | UnsignedIntImage2DMultisample
    | UnsignedIntImage2DMultisampleArray | UnsignedIntImage2DRect | UnsignedIntImage3D
    | UnsignedIntImageBuffer | UnsignedIntImageCube | UnsignedIntImageCubeMapArray
    // samplers
    | Sampler1D | Sampler1DArray | Sampler1DArrayShadow | Sampler1DShadow | Sampler2D
    | Sampler2DArray | Sampler2DArrayShadow | Sampler2DMultisample | Sampler2DMultisampleArray
    | Sampler2DRect | Sampler2DRectShadow | Sampler2DShadow | Sampler3D | SamplerBuffer
    | SamplerCube | SamplerCubeMapArray | SamplerCubeMapArrayShadow | SamplerCubeShadow
    | IntSampler1D | IntSampler1DArray | IntSampler2D | IntSampler2DArray
    | IntSampler2DMultisample | IntSampler2DMultisampleArray | IntSampler2DRect | IntSampler3D
    | IntSamplerBuffer | IntSamplerCube | IntSamplerCubeMapArray
    | UnsignedIntSampler1D | UnsignedIntSampler1DArray | UnsignedIntSampler2D
    | UnsignedIntSampler2DArray | UnsignedIntSampler2DMultisample
    | UnsignedIntSampler2DMultisampleArray | UnsignedIntSampler2DRect | UnsignedIntSampler3D
    | UnsignedIntSamplerBuffer | UnsignedIntSamplerCube | UnsignedIntSamplerCubeMapArray
    // atomic counters
    | UnsignedIntAtomicCounter
    // any other tag value
    | Other

  /** The family a native tag belongs to, read off the API's naming scheme. */
  datatype TagFamily =
    | Scalar | BoolVector | DoubleVector | FloatVector | IntVector | UIntVector
    | FloatMatrix | FloatImage | IntImage | UIntImage
    | FloatSampler | IntSampler | UIntSampler | AtomicCounter | Unlisted

  function Family(t: ActiveUniformType): TagFamily {
    match t
    case Bool | Double | Float | Int | UnsignedInt => Scalar
    case BoolVec2 | BoolVec3 | BoolVec4 => BoolVector
    case DoubleVec2 | DoubleVec3 | DoubleVec4 => DoubleVector
    case FloatVec2 | FloatVec3 | FloatVec4 => FloatVector
    case IntVec2 | IntVec3 | IntVec4 => IntVector
    case UnsignedIntVec2 | UnsignedIntVec3 | UnsignedIntVec4 => UIntVector
    case FloatMat2 | FloatMat2x3 | FloatMat2x4 | FloatMat3 | FloatMat3x2 | FloatMat3x4
      | FloatMat4 | FloatMat4x2 | FloatMat4x3
      => FloatMatrix
    case Image1D | Image1DArray | Image2D | Image2DArray | Image2DMultisample
      | Image2DMultisampleArray | Image2DRect | Image3D | ImageBuffer | ImageCube
      | ImageCubeMapArray
      => FloatImage
    case IntImage1D | IntImage1DArray | IntImage2D | IntImage2DArray | IntImage2DMultisample
      | IntImage2DMultisampleArray | IntImage2DRect | IntImage3D | IntImageBuffer | IntImageCube
      | IntImageCubeMapArray
      => IntImage
    case UnsignedIntImage1D | UnsignedIntImage1DArray | UnsignedIntImage2D
      | UnsignedIntImage2DArray | UnsignedIntImage2DMultisample
      | UnsignedIntImage2DMultisampleArray | UnsignedIntImage2DRect | UnsignedIntImage3D
      | UnsignedIntImageBuffer | UnsignedIntImageCube | UnsignedIntImageCubeMapArray
      => UIntImage
    case Sampler1D | Sampler1DArray | Sampler1DArrayShadow | Sampler1DShadow | Sampler2D
      | Sampler2DArray | Sampler2DArrayShadow | Sampler2DMultisample | Sampler2DMultisampleArray
      | Sampler2DRect | Sampler2DRectShadow | Sampler2DShadow | Sampler3D | SamplerBuffer
      | SamplerCube | SamplerCubeMapArray | SamplerCubeMapArrayShadow | SamplerCubeShadow
      => FloatSampler
    case IntSampler1D | IntSampler1DArray | IntSampler2D | IntSampler2DArray
      | IntSampler2DMultisample | IntSampler2DMultisampleArray | IntSampler2DRect | IntSampler3D
      | IntSamplerBuffer | IntSamplerCube | IntSamplerCubeMapArray
      => IntSampler
    case UnsignedIntSampler1D | UnsignedIntSampler1DArray | UnsignedIntSampler2D
      | UnsignedIntSampler2DArray | UnsignedIntSampler2DMultisample
      | UnsignedIntSampler2DMultisampleArray | UnsignedIntSampler2DRect | UnsignedIntSampler3D
      | UnsignedIntSamplerBuffer | UnsignedIntSamplerCube | UnsignedIntSamplerCubeMapArray
      => UIntSampler
    case UnsignedIntAtomicCounter => AtomicCounter
    case Other => Unlisted
  }

  /** Every float, signed-integer and unsigned-integer sampler variant. */
  predicate IsSamplerTag(t: ActiveUniformType) {
    var f := Family(t);
    f == FloatSampler || f == IntSampler || f == UIntSampler
  }

  /**
   * The tags the generator refuses: image units, atomic counters, and also the
   * boolean and integer vectors and anything else that reaches `default`.
   */
  predicate IsUnsupportedTag(t: ActiveUniformType) {
    var f := Family(t);
    f == FloatImage || f == IntImage || f == UIntImage || f == AtomicCounter
    || f == BoolVector || f == IntVector || f == UIntVector || f == Unlisted
  }

  /** The generator's logical type set (`Program.UniformType`). */
  datatype UniformType =
    | BoolType | DoubleType | Vector2d | Vector3d | Vector4d | FloatType
    | Matrix2 | Matrix2x3 | Matrix2x4 | Matrix3 | Matrix3x2 | Matrix3x4
    | Matrix4 | Matrix4x2 | Matrix4x3 | Vector2 | Vector3 | Vector4
    | IntType | Texture | UIntType

  predicate IsScalarType(u: UniformType) {
    u == BoolType || u == DoubleType || u == FloatType || u == IntType || u == UIntType
  }

  /** Component count of a vector type; 0 for every other type. */
  function VectorSize(u: UniformType): nat {
    match u
    case Vector2 | Vector2d => 2
    case Vector3 | Vector3d => 3
    case Vector4 | Vector4d => 4
    case _ => 0
  }

  predicate IsDoubleVector(u: UniformType) {
    u == Vector2d || u == Vector3d || u == Vector4d
  }

  /** Row count of a matrix type; 0 for every other type. */
  function MatrixRows(u: UniformType): nat {
    match u
    case Matrix2 | Matrix2x3 | Matrix2x4 => 2
    case Matrix3 | Matrix3x2 | Matrix3x4 => 3
    case Matrix4 | Matrix4x2 | Matrix4x3 => 4
    case _ => 0
  }

  /** Column count of a matrix type; 0 for every other type. */
  function MatrixCols(u: UniformType): nat {
    match u
    case Matrix2 | Matrix3x2 | Matrix4x2 => 2
    case Matrix2x3 | Matrix3 | Matrix4x3 => 3
    case Matrix2x4 | Matrix3x4 | Matrix4 => 4
    case _ => 0
  }

  /** The C# keyword of a scalar type. */
  function ScalarKeyword(u: UniformType): string
    requires IsScalarType(u)
  {
    match u
    case BoolType => "bool"
    case DoubleType => "double"
    case FloatType => "float"
    case IntType => "int"
    case UIntType => "uint"
  }

  /** `R` for a square matrix, `RxC` otherwise, as in `Matrix2x3` and `UniformMatrix2x3`. */
  function MatrixSuffix(rows: nat, cols: nat): string
    requires 2 <= rows <= 4 && 2 <= cols <= 4
  {
    if rows == cols then [DigitChar(rows)] else [DigitChar(rows), 'x', DigitChar(cols)]
  }

  /** The native tag that maps to a non-texture logical type: the inverse of `GetUniformType`. */
  function NativeTag(u: UniformType): Option<ActiveUniformType> {
    match u
    case BoolType => Some(Bool)
    case DoubleType => Some(Double)
    case Vector2d => Some(DoubleVec2)
    case Vector3d => Some(DoubleVec3)
    case Vector4d => Some(DoubleVec4)
    case FloatType => Some(Float)
    case Matrix2 => Some(FloatMat2)
    case Matrix2x3 => Some(FloatMat2x3)
    case Matrix2x4 => Some(FloatMat2x4)
    case Matrix3 => Some(FloatMat3)
    case Matrix3x2 => Some(FloatMat3x2)
    case Matrix3x4 => Some(FloatMat3x4)
    case Matrix4 => Some(FloatMat4)
    case Matrix4x2 => Some(FloatMat4x2)
    case Matrix4x3 => Some(FloatMat4x3)
    case Vector2 => Some(FloatVec2)
    case Vector3 => Some(FloatVec3)
    case Vector4 => Some(FloatVec4)
    case IntType => Some(Int)
    case Texture => None
    case UIntType => Some(UnsignedInt)
  }

  /** `GetUniformType`: `None` is the exception thrown at the end of the switch. */
  function GetUniformType(t: ActiveUniformType): Option<UniformType>
  {
    match t
    case Bool => Some(BoolType)
    case Double => Some(DoubleType)
    case DoubleVec2 => Some(Vector2d)
    case DoubleVec3 => Some(Vector3d)
    case DoubleVec4 => Some(Vector4d)
    case Float => Some(FloatType)
    case FloatMat2 => Some(Matrix2)
    case FloatMat2x3 => Some(Matrix2x3)
    case FloatMat2x4 => Some(Matrix2x4)
    case FloatMat3 => Some(Matrix3)
    case FloatMat3x2 => Some(Matrix3x2)
    case FloatMat3x4 => Some(Matrix3x4)
    case FloatMat4 => Some(Matrix4)
    case FloatMat4x2 => Some(Matrix4x2)
    case FloatMat4x3 => Some(Matrix4x3)
    case FloatVec2 => Some(Vector2)
    case FloatVec3 => Some(Vector3)
    case FloatVec4 => Some(Vector4)
    case Image1D | Image1DArray | Image2D | Image2DArray | Image2DMultisample
      | Image2DMultisampleArray | Image2DRect | Image3D | ImageBuffer | ImageCube
      | ImageCubeMapArray
      => None
    case Int => Some(IntType)
    case IntImage1D | IntImage1DArray | IntImage2D | IntImage2DArray | IntImage2DMultisample
      | IntImage2DMultisampleArray | IntImage2DRect | IntImage3D | IntImageBuffer | IntImageCube
      | IntImageCubeMapArray
      => None
    case IntSampler1D | IntSampler1DArray | IntSampler2D | IntSampler2DArray
      | IntSampler2DMultisample | IntSampler2DMultisampleArray | IntSampler2DRect | IntSampler3D
      | IntSamplerBuffer | IntSamplerCube | IntSamplerCubeMapArray
      => Some(Texture)
    case IntVec2 | IntVec3 | IntVec4 => None
    case Sampler1D | Sampler1DArray | Sampler1DArrayShadow | Sampler1DShadow | Sampler2D
      | Sampler2DArray | Sampler2DArrayShadow | Sampler2DMultisample | Sampler2DMultisampleArray
      | Sampler2DRect | Sampler2DRectShadow | Sampler2DShadow | Sampler3D | SamplerBuffer
      | SamplerCube | SamplerCubeMapArray | SamplerCubeMapArrayShadow | SamplerCubeShadow
      => Some(Texture)
    case UnsignedInt => Some(UIntType)
    case UnsignedIntAtomicCounter => None
    case UnsignedIntImage1D | UnsignedIntImage1DArray | UnsignedIntImage2D
      | UnsignedIntImage2DArray | UnsignedIntImage2DMultisample
      | UnsignedIntImage2DMultisampleArray | UnsignedIntImage2DRect | UnsignedIntImage3D
      | UnsignedIntImageBuffer | UnsignedIntImageCube | UnsignedIntImageCubeMapArray
      => None
    case UnsignedIntSampler1D | UnsignedIntSampler1DArray | UnsignedIntSampler2D
      | UnsignedIntSampler2DArray | UnsignedIntSampler2DMultisample
      | UnsignedIntSampler2DMultisampleArray | UnsignedIntSampler2DRect | UnsignedIntSampler3D
      | UnsignedIntSamplerBuffer | UnsignedIntSamplerCube | UnsignedIntSamplerCubeMapArray
      => Some(Texture)
    case UnsignedIntVec2 | UnsignedIntVec3 | UnsignedIntVec4 => None
    case BoolVec2 | BoolVec3 | BoolVec4 | Other => None
  }

  /** Every sampler variant, of every component type, collapses to `Texture`. */
  lemma SamplerTagsAreTextures(t: ActiveUniformType)
    requires IsSamplerTag(t)
    ensures GetUniformType(t) == Some(Texture)
  {}

  /** `Texture` comes from sampler tags only. */
  lemma TexturesComeFromSamplerTags(t: ActiveUniformType)
    requires GetUniformType(t) == Some(Texture)
    ensures IsSamplerTag(t)
  {}

  /** The switch refuses exactly the unsupported tags. */
  lemma UnsupportedTagsAreRefused(t: ActiveUniformType)
    ensures GetUniformType(t).None? <==> IsUnsupportedTag(t)
  {}

  /** Every non-texture logical type comes from exactly one native tag, the one `NativeTag` names. */
  lemma NativeTagInvertsGetUniformType(t: ActiveUniformType)
    requires GetUniformType(t).Some? && GetUniformType(t).value != Texture
    ensures NativeTag(GetUniformType(t).value) == Some(t)
  {}

  /** ... and `GetUniformType` maps that tag back. */
  lemma GetUniformTypeInvertsNativeTag(u: UniformType)
    requires u != Texture
    ensures NativeTag(u).Some? && GetUniformType(NativeTag(u).value) == Some(u)
  {}

  /** `GL.Uniform<K>(__name, uniform_name);` */
  function UniformCall(arity: string, name: string): string {
    "GL.Uniform" + arity + "(__" + name + ", uniform_" + name + ");"
  }

  /** `GL.UniformMatrix<S>(__name, TransposeMatrix, ref uniform_name);` */
  function UniformMatrixCall(suffix: string, name: string): string {
    "GL.UniformMatrix" + suffix + "(__" + name + ", TransposeMatrix, ref uniform_" + name + ");"
  }

  /**
   * The draw-time call a non-texture logical type needs: a one-to-four
   * component `GL.Uniform<K>` for scalars and vectors, a dimensioned
   * `GL.UniformMatrix<R[xC]>` with the instance's transpose flag for matrices.
   */
  function ExpectedDrawCommand(u: UniformType, name: string): string
    requires u != Texture
  {
    if MatrixRows(u) > 0 then
      UniformMatrixCall(MatrixSuffix(MatrixRows(u), MatrixCols(u)), name)
    else
      UniformCall([DigitChar(if IsScalarType(u) then 1 else VectorSize(u))], name)
  }

  /**
   * `GetDrawCommand`: the call that passes uniform `name` at draw time, or ""
   * for every tag the generator either binds as a texture or refuses.
   */
  function GetDrawCommand(t: ActiveUniformType, name: string): string
  {
    match t
    case Int | UnsignedInt | Double | Float | Bool => UniformCall("1", name)
    case DoubleVec2 | FloatVec2 => UniformCall("2", name)
    case FloatVec3 | DoubleVec3 => UniformCall("3", name)
    case FloatVec4 | DoubleVec4 => UniformCall("4", name)
    case FloatMat2 => UniformMatrixCall("2", name)
    case FloatMat2x3 => UniformMatrixCall("2x3", name)
    case FloatMat2x4 => UniformMatrixCall("2x4", name)
    case FloatMat3 => UniformMatrixCall("3", name)
    case FloatMat3x2 => UniformMatrixCall("3x2", name)
    case FloatMat3x4 => UniformMatrixCall("3x4", name)
    case FloatMat4 => UniformMatrixCall("4", name)
    case FloatMat4x2 => UniformMatrixCall("4x2", name)
    case FloatMat4x3 => UniformMatrixCall("4x3", name)
    case _ => ""
  }

  /** Scalars and vectors get the `GL.Uniform` call of their component count. */
  lemma DrawCommandOfScalarOrVector(u: UniformType, name: string)
    requires u != Texture && MatrixRows(u) == 0
    ensures GetDrawCommand(NativeTag(u).value, name) == ExpectedDrawCommand(u, name)
  {}

  /** Matrices get the `GL.UniformMatrix` call of their dimensions, with the transpose flag. */
  lemma DrawCommandOfMatrix(u: UniformType, name: string)
    requires MatrixRows(u) > 0
    ensures GetDrawCommand(NativeTag(u).value, name) == ExpectedDrawCommand(u, name)
  {}

  /** Textures are bound by the caller, and refused tags never get here: both have no draw call. */
  lemma NoDrawCommandForTexturesOrRefusedTags(t: ActiveUniformType, name: string)
    requires IsSamplerTag(t) || IsUnsupportedTag(t)
    ensures GetDrawCommand(t, name) == ""
  {}

  /** Every tag mapped to a non-texture type has a non-empty draw call, the one its type needs. */
  lemma DrawCommandOfSupportedTag(t: ActiveUniformType, name: string)
    requires GetUniformType(t).Some? && GetUniformType(t).value != Texture
    ensures GetDrawCommand(t, name) == ExpectedDrawCommand(GetUniformType(t).value, name)
    ensures GetDrawCommand(t, name) != ""
  {
    var u := GetUniformType(t).value;
    NativeTagInvertsGetUniformType(t);
    if MatrixRows(u) > 0 {
      DrawCommandOfMatrix(u, name);
    } else {
      DrawCommandOfScalarOrVector(u, name);
    }
  }

  /** The name `Enum.ToString()` gives a `UniformType` value. */
  function EnumName(u: UniformType): string {
    match u
    case BoolType => "bool"
    case DoubleType => "double"
    case Vector2d => "Vector2d"
    case Vector3d => "Vector3d"
    case Vector4d => "Vector4d"
    case FloatType => "float"
    case Matrix2 => "Matrix2"
    case Matrix2x3 => "Matrix2x3"
    case Matrix2x4 => "Matrix2x4"
    case Matrix3 => "Matrix3"
    case Matrix3x2 => "Matrix3x2"
    case Matrix3x4 => "Matrix3x4"
    case Matrix4 => "Matrix4"
    case Matrix4x2 => "Matrix4x2"
    case Matrix4x3 => "Matrix4x3"
    case Vector2 => "Vector2"
    case Vector3 => "Vector3"
    case Vector4 => "Vector4"
    case IntType => "int"
    case Texture => "Texture"
    case UIntType => "uint"
  }

  /**
   * `ToString(UniformType)`: the C# type of a uniform's backing field. Scalars
   * and, as written, `Vector2d` use the bare name; the other vectors and all
   * matrices are qualified with `global::OpenTK.`; textures use the runtime's
   * `Texture` class.
   */
  function TypeName(u: UniformType): string
  {
    match u
    case BoolType | DoubleType | Vector2d | FloatType | IntType | UIntType => EnumName(u)
    case Vector3d | Vector4d | Matrix2 | Matrix2x3 | Matrix2x4 | Matrix3 | Matrix3x2
      | Matrix3x4 | Matrix4 | Matrix4x2 | Matrix4x3 | Vector2 | Vector3 | Vector4
      => "global::OpenTK." + EnumName(u)
    case Texture => "global::ShaderRuntime.Texture"
  }

  lemma TypeNameOfScalar(u: UniformType)
    requires IsScalarType(u)
    ensures TypeName(u) == ScalarKeyword(u)
  {}

  /** `Vector2d` is emitted without the `global::OpenTK.` qualifier the other vectors get. */
  lemma TypeNameOfVector(u: UniformType)
    requires VectorSize(u) > 0
    ensures u == Vector2d ==> TypeName(u) == "Vector2d"
    ensures u != Vector2d ==> TypeName(u) == "global::OpenTK.Vector" + [DigitChar(VectorSize(u))]
                                             + (if IsDoubleVector(u) then "d" else "")
  {}

  lemma TypeNameOfMatrix(u: UniformType)
    requires MatrixRows(u) > 0
    ensures TypeName(u) == "global::OpenTK.Matrix" + MatrixSuffix(MatrixRows(u), MatrixCols(u))
  {}

  lemma TypeNameOfTexture()
    ensures TypeName(Texture) == "global::ShaderRuntime.Texture"
  {}
}
