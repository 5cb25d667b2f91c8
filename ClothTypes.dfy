/** The value types of ClothObject.h: the padded structure layouts shared with
    the compute shader, the user-facing cloth parameters with their defaults,
    the uniform block, and the constants derived from the parameters. */
module ClothTypes {

  /** A 32-bit float of the source, modelled as an exact real number
      (no rounding, no NaN, no infinities). */
  type Float = real

  /** Bytes of one `float` field. */
  const FloatBytes: nat := 4

  datatype Vec3 = Vec3(x: Float, y: Float, z: Float)

  const Zero3: Vec3 := Vec3(0.0, 0.0, 0.0)

  // ---------------------------------------------------------------------------
  // Structure layouts

  /** A field of a shader-visible structure: a scalar `float` or a `vec3`. */
  datatype FieldKind = Scalar | Vector3

  function FieldBytes(k: FieldKind): nat
  {
    match k
    case Scalar => FloatBytes
    case Vector3 => 3 * FloatBytes
  }

  /** Byte size of a structure made of the given fields. Every field is a
      float or a vector of floats, so every field is 4-byte aligned and the host
      compiler inserts no padding: the size is the sum of the field sizes. */
  function LayoutBytes(fields: seq<FieldKind>): nat
    decreases |fields|
  {
    if fields == [] then 0 else LayoutBytes(fields[..|fields| - 1]) + FieldBytes(fields[|fields| - 1])
  }

  lemma {:induction false} LayoutBytesAppend(a: seq<FieldKind>, b: seq<FieldKind>)
    ensures LayoutBytes(a + b) == LayoutBytes(a) + LayoutBytes(b)
    decreases |b|
  {
    if b == [] {
      assert a + b == a;
    } else {
      var b' := b[..|b| - 1];
      assert (a + b)[..|a + b| - 1] == a + b';
      assert (a + b)[|a + b| - 1] == b[|b| - 1];
      LayoutBytesAppend(a, b');
    }
  }

  /** Byte offset of field `i`: the size of the fields before it. */
  function FieldOffset(fields: seq<FieldKind>, i: nat): nat
    requires i <= |fields|
  {
    LayoutBytes(fields[..i])
  }

  /** Every `vec3` starts on a 16-byte boundary and the structure size is a
      multiple of 16: the alignment a WGSL `vec3<f32>` member and a WGSL
      structure holding one demand, so that the host layout and the
      shader's layout coincide. */
  ghost predicate ShaderCompatible(fields: seq<FieldKind>)
  {
    && LayoutBytes(fields) % 16 == 0
    && forall i :: 0 <= i < |fields| && fields[i] == Vector3 ==> FieldOffset(fields, i) % 16 == 0
  }

  /** ClothVertex: position, garbage1, normal, garbage2. */
  const ClothVertexLayout: seq<FieldKind> := [Vector3, Scalar, Vector3, Scalar]

  /** ClothParticle: position, garbage1, velocity, garbage2. */
  const ClothParticleLayout: seq<FieldKind> := [Vector3, Scalar, Vector3, Scalar]

  /** ClothUniforms: sixteen scalars (width, height, particleDist,
      particleMass, particleScale, closeSpringStrength, farSpringStrength,
      maxStretch, minStretch, wind_strength, sphereRadius, sphereX, sphereY,
      sphereZ, deltaT, currentT), then wind_dir and its padding float. */
  const ClothUniformsLayout: seq<FieldKind> :=
    [Scalar, Scalar, Scalar, Scalar, Scalar, Scalar, Scalar, Scalar,
     Scalar, Scalar, Scalar, Scalar, Scalar, Scalar, Scalar, Scalar,
     Vector3, Scalar]

  /** A position-plus-padding, vector-plus-padding block, the shape shared
      by ClothVertex and ClothParticle. */
  lemma PaddedPairLayout(fields: seq<FieldKind>)
    requires fields == [Vector3, Scalar, Vector3, Scalar]
    ensures LayoutBytes(fields) == 32
    ensures ShaderCompatible(fields)
  {
    assert fields[..0] == [];
    assert fields[..1][..0] == [] && LayoutBytes(fields[..1]) == 12;
    assert fields[..2][..1] == fields[..1] && LayoutBytes(fields[..2]) == 16;
    assert fields[..3][..2] == fields[..2] && LayoutBytes(fields[..3]) == 28;
    assert fields[..4] == fields && fields[..3] == fields[..|fields| - 1];
    assert LayoutBytes(fields) == 32;
    forall i | 0 <= i < |fields| && fields[i] == Vector3
      ensures FieldOffset(fields, i) % 16 == 0
    {
      assert i == 0 || i == 2;
    }
  }

  /** sizeof(ClothParticle) */
  function SizeOfClothParticle(): (n: nat)
    ensures n == 32 && ShaderCompatible(ClothParticleLayout)
  {
    PaddedPairLayout(ClothParticleLayout);
    LayoutBytes(ClothParticleLayout)
  }

  /** sizeof(ClothVertex) */
  function SizeOfClothVertex(): (n: nat)
    ensures n == 32 && ShaderCompatible(ClothVertexLayout)
  {
    PaddedPairLayout(ClothVertexLayout);
    LayoutBytes(ClothVertexLayout)
  }

  /** The first `n` fields of a run of scalars take `4 * n` bytes. */
  lemma {:induction false} ScalarsBytes(fields: seq<FieldKind>)
    requires forall i :: 0 <= i < |fields| ==> fields[i] == Scalar
    ensures LayoutBytes(fields) == FloatBytes * |fields|
    decreases |fields|
  {
    if fields != [] {
      ScalarsBytes(fields[..|fields| - 1]);
    }
  }

  /** sizeof(ClothUniforms): twenty floats. */
  function SizeOfClothUniforms(): (n: nat)
    ensures n == 80 && ShaderCompatible(ClothUniformsLayout)
  {
    UniformsLayoutFacts();
    LayoutBytes(ClothUniformsLayout)
  }

  lemma UniformsLayoutFacts()
    ensures LayoutBytes(ClothUniformsLayout) == 80
    ensures ShaderCompatible(ClothUniformsLayout)
  {
    var fs := ClothUniformsLayout;
    var scalars := fs[..16];
    ScalarsBytes(scalars);
    assert fs == scalars + [Vector3, Scalar];
    LayoutBytesAppend(scalars, [Vector3, Scalar]);
    assert [Vector3, Scalar][..1] == [Vector3];
    assert LayoutBytes([Vector3, Scalar]) == 16;
    forall i | 0 <= i < |fs| && fs[i] == Vector3
      ensures FieldOffset(fs, i) % 16 == 0
    {
      assert i == 16;
    }
  }

  // ---------------------------------------------------------------------------
  // Parameters, uniforms, particles

  /** ClothParameters: the only configuration the simulation takes. */
  datatype ClothParameters = ClothParameters(
    width: int,
    height: int,
    particlesPerGroup: int,
    scale: Float,
    massScale: Float,
    maxStretch: Float,
    minStretch: Float,
    closeSpringStrength: Float,
    farSpringStrength: Float,
    windDir: Vec3,
    windStrength: Float,
    sphereRadius: Float,
    spherePeriod: Float,
    sphereRange: Float,
    deltaT: Float)

  /** The default member initialisers of ClothParameters. */
  const DefaultParameters: ClothParameters :=
    ClothParameters(
      width := 100, height := 100, particlesPerGroup := 64,
      scale := 1.0, massScale := 100.0, maxStretch := 1.1, minStretch := 0.1,
      closeSpringStrength := 73.0, farSpringStrength := 12.5,
      windDir := Vec3(0.0, 0.0, 1.0), windStrength := 10.0,
      sphereRadius := 0.3, spherePeriod := 150.0, sphereRange := 2.0,
      deltaT := 0.008)

  /** Parameters the derivations can be computed from: a grid of at least
      one particle in each direction, and a sphere period the oscillator can
      divide by. */
  predicate ValidParameters(p: ClothParameters)
  {
    p.width >= 1 && p.height >= 1 && p.spherePeriod != 0.0
  }

  /** ClothUniforms, field for field; `garbage1` pads `windDir`. */
  datatype ClothUniforms = ClothUniforms(
    width: Float,
    height: Float,
    particleDist: Float,
    particleMass: Float,
    particleScale: Float,
    closeSpringStrength: Float,
    farSpringStrength: Float,
    maxStretch: Float,
    minStretch: Float,
    windStrength: Float,
    sphereRadius: Float,
    sphereX: Float,
    sphereY: Float,
    sphereZ: Float,
    deltaT: Float,
    currentT: Float,
    windDir: Vec3,
    garbage1: Float)

  /** `ClothUniforms()`: value-initialisation sets every field to zero. */
  const ZeroUniforms: ClothUniforms :=
    ClothUniforms(0.0, 0.0, 0.0, 0.0, 0.0, 0.0, 0.0, 0.0, 0.0,
                  0.0, 0.0, 0.0, 0.0, 0.0, 0.0, 0.0, Zero3, 0.0)

  /** ClothParticle as the host fills it; its padding floats are left
      uninitialised by the host and are not modelled. */
  datatype ClothParticle = ClothParticle(position: Vec3, velocity: Vec3)

  // ---------------------------------------------------------------------------
  // Derived constants

  /** numParticles: one particle per grid point. */
  function NumParticles(p: ClothParameters): int
  {
    p.width * p.height
  }

  /** Number of grid cells: the quads between neighbouring particles. */
  function NumCells(p: ClothParameters): int
  {
    (p.width - 1) * (p.height - 1)
  }

  /** numVertices: two triangles of three vertices for every grid cell. */
  function NumVertices(p: ClothParameters): int
  {
    3 * 2 * (p.width - 1) * (p.height - 1)
  }

  /** totalMass = scale * massScale. */
  function TotalMass(p: ClothParameters): Float
  {
    p.scale * p.massScale
  }

  /** particleMass: the total mass divided by the particle count. */
  function ParticleMass(p: ClothParameters): Float
    requires ValidParameters(p)
  {
    TotalMass(p) / (NumParticles(p) as real)
  }

  /** particleDist: the scale divided by the grid height. */
  function ParticleDist(p: ClothParameters): Float
    requires ValidParameters(p)
  {
    p.scale / (p.height as real)
  }

  /** The particle count covers every row and every column: it is at least
      the width and at least the height, so never zero. */
  lemma NumParticlesBounds(p: ClothParameters)
    requires ValidParameters(p)
    ensures NumParticles(p) >= p.width && NumParticles(p) >= p.height && NumParticles(p) >= 1
  {
    assert p.width * p.height >= p.width * 1;
    assert p.width * p.height >= 1 * p.height;
  }

  /** Six vertices per grid cell: the vertex count is a multiple of six, it is
      zero exactly when the grid is one particle wide or high (there is no
      cell), and it stays below six per particle. */
  lemma NumVerticesFacts(p: ClothParameters)
    requires ValidParameters(p)
    ensures NumVertices(p) == 6 * NumCells(p)
    ensures NumVertices(p) >= 0 && NumVertices(p) % 6 == 0
    ensures NumVertices(p) == 0 <==> p.width == 1 || p.height == 1
    ensures NumVertices(p) < 6 * NumParticles(p)
  {
    CellProduct(p.width - 1, p.height - 1);
  }

  lemma CellProduct(a: int, b: int)
    requires a >= 0 && b >= 0
    ensures 3 * 2 * a * b == 6 * (a * b)
    ensures a * b >= 0 && (a * b == 0 <==> a == 0 || b == 0)
    ensures a * b < (a + 1) * (b + 1)
  {
    assert (a + 1) * (b + 1) == a * b + a + b + 1;
    if a > 0 && b > 0 {
      assert a * b >= a * 1;
    }
  }

  /** The total mass is shared out equally: `numParticles` particles of
      `particleMass` weigh `totalMass` together. */
  lemma MassSharedEqually(p: ClothParameters)
    requires ValidParameters(p)
    ensures ParticleMass(p) * (NumParticles(p) as real) == TotalMass(p)
  {
    NumParticlesBounds(p);
  }

  /** `height` steps of the rest distance span the cloth's scale. */
  lemma DistanceSpansScale(p: ClothParameters)
    requires ValidParameters(p)
    ensures ParticleDist(p) * (p.height as real) == p.scale
  {
  }

  /** The default-initialised derived members of a fresh object. */
  lemma DefaultDerived()
    ensures ValidParameters(DefaultParameters)
    ensures NumParticles(DefaultParameters) == 10000
    ensures NumVertices(DefaultParameters) == 58806
    ensures TotalMass(DefaultParameters) == 100.0
    ensures ParticleMass(DefaultParameters) == 0.01
    ensures ParticleDist(DefaultParameters) == 0.01
  {
  }
}
