/** The setup of the screen-space ambient occlusion data in main.cpp:241-275: a kernel of sample
    vectors in the upper unit hemisphere, denser near the origin, and a 4 x 4 tile of random
    rotation vectors in the tangent plane. The random generator is replaced by the sequence of
    values it draws, each in [0, 1). */
module SsaoKernel {
  import opened Vectors

  /** `int kernelSize = 4` (main.cpp:245). */
  const KERNEL_SIZE := 4
  /** The noise texture is uploaded as NOISE_TILE x NOISE_TILE texels (main.cpp:271). */
  const NOISE_TILE := 4
  /** The noise loop bound (main.cpp:263). */
  const NOISE_COUNT := 16
  /** Draws taken per kernel sample: three for the direction, one for the length. */
  const DRAWS_PER_SAMPLE := 4
  /** Draws taken per noise entry: x and y. */
  const DRAWS_PER_NOISE := 2

  /** The `lerp` lambda (main.cpp:246-248): `a + f * (b - a)`. */
  function Lerp(a: real, b: real, f: real): (r: real)
    ensures f == 0.0 ==> r == a
    ensures f == 1.0 ==> r == b
    ensures a < b && 0.0 <= f < 1.0 ==> a <= r < b
  {
    SignOfProduct(f, b - a);
    SignOfProduct(1.0 - f, b - a);
    a + Mul(f, b - a)
  }

  /** For an increasing interval, `lerp` does not decrease as f grows. */
  lemma LerpMonotone(a: real, b: real, f1: real, f2: real)
    requires a <= b && f1 <= f2
    ensures Lerp(a, b, f1) <= Lerp(a, b, f2)
  {
    SignOfProduct(f2 - f1, b - a);
  }

  /** For non-negative reals, squaring preserves order. */
  lemma SquareMonotone(s: real, t: real)
    requires 0.0 <= s <= t
    ensures Mul(s, s) <= Mul(t, t)
  {
    SignOfProduct(t - s, t + s);
  }

  /** `float(i) / (float)kernelSize`: the position of sample i in the kernel, in [0, 1). */
  function Fraction(i: nat, n: nat): (s: real)
    requires i < n
    ensures 0.0 <= s < 1.0
  {
    var s := i as real / n as real;
    assert s * n as real == i as real;
    SignOfProduct(1.0 - s, n as real);
    s
  }

  lemma FractionMonotone(i: nat, j: nat, n: nat)
    requires i <= j < n
    ensures Fraction(i, n) <= Fraction(j, n)
  {
    var s, t := Fraction(i, n), Fraction(j, n);
    assert s * n as real == i as real && t * n as real == j as real;
    SignOfProduct(s - t, n as real);
  }

  /** The scale of sample i of n (main.cpp:254-256): `lerp(0.1, 1.0, (i/n)^2)`, so that samples
      cluster near the origin. It lies in [0.1, 1.0). */
  function SampleScale(i: nat, n: nat): (scale: real)
    requires i < n
    ensures 0.1 <= scale < 1.0
  {
    var s := Fraction(i, n);
    SignOfProduct(s, s);
    Lerp(0.1, 1.0, Mul(s, s))
  }

  /** The scale is the smallest, 0.1, for the first sample. */
  lemma FirstSampleScale(n: nat)
    requires 0 < n
    ensures SampleScale(0, n) == 0.1
  {
  }

  /** The scale does not decrease along the kernel. */
  lemma SampleScaleMonotone(i: nat, j: nat, n: nat)
    requires i <= j < n
    ensures SampleScale(i, n) <= SampleScale(j, n)
  {
    FractionMonotone(i, j, n);
    SquareMonotone(Fraction(i, n), Fraction(j, n));
    LerpMonotone(0.1, 1.0, Mul(Fraction(i, n), Fraction(i, n)), Mul(Fraction(j, n), Fraction(j, n)));
  }

  /** What `uniform_real_distribution(0.0, 1.0)` yields: values in [0, 1). */
  predicate ValidDraws(draws: seq<real>) {
    forall k :: 0 <= k < |draws| ==> 0.0 <= draws[k] < 1.0
  }

  /** C++ leaves the evaluation order of constructor arguments unspecified: argument x, y or z
      receives the draw taken first, second or third according to this permutation of 0, 1, 2. */
  datatype EvalOrder = EvalOrder(x: nat, y: nat, z: nat)

  predicate IsPermutation(o: EvalOrder) {
    o.x < 3 && o.y < 3 && o.z < 3 && o.x != o.y && o.y != o.z && o.x != o.z
  }

  /** The first draw index of kernel sample i, when the kernel's draws begin at `start`. */
  function SampleStart(start: nat, i: nat): nat {
    start + i * DRAWS_PER_SAMPLE
  }

  /** `glm::vec3 sample(r*2-1, r*2-1, r)` (main.cpp:250), each argument taking the draw its place
      in the evaluation order gives it: x and y map their draws to [-1, 1), z keeps its draw in
      [0, 1). */
  function RawSample(draws: seq<real>, start: nat, i: nat, order: EvalOrder): (v: Vec3)
    requires IsPermutation(order) && SampleStart(start, i) + 3 < |draws|
    ensures ValidDraws(draws) ==> -1.0 <= v.x < 1.0 && -1.0 <= v.y < 1.0 && 0.0 <= v.z < 1.0
  {
    var k := SampleStart(start, i);
    Vec3(draws[k + order.x] * 2.0 - 1.0, draws[k + order.y] * 2.0 - 1.0, draws[k + order.z])
  }

  /** The direction of a raw sample is its normalisation, whose z has the sign of the raw z. */
  lemma UnitKeepsSignOfZ(v: Vec3, sqrt: real -> real)
    requires IsSqrt(sqrt) && v != Zero && 0.0 <= v.z
    ensures 0.0 <= Unit(v, sqrt).z
  {
    var u, len := Unit(v, sqrt), Length(v, sqrt);
    assert u.z * len == v.z;
    SignOfProduct(-u.z, len);
  }

  /** Two factors in [0, 1) multiply to a value in [0, 1). */
  lemma ProductBelowOne(p: real, q: real)
    requires 0.0 <= p < 1.0 && 0.0 <= q < 1.0
    ensures 0.0 <= Mul(p, q) < 1.0
  {
    SignOfProduct(p, q);
  }

  /** Shrinking a unit vector by two factors in [0, 1) keeps it strictly inside the unit sphere. */
  lemma ShrunkUnitInsideSphere(u: Vec3, m: real, scale: real)
    requires Dot(u, u) == 1.0 && 0.0 <= m < 1.0 && 0.0 <= scale < 1.0
    ensures 0.0 <= Dot(Scale(Scale(u, m), scale), Scale(Scale(u, m), scale)) < 1.0
  {
    DotScale(u, m);
    DotScale(Scale(u, m), scale);
    ProductBelowOne(m, m);
    ProductBelowOne(scale, scale);
    assert Dot(Scale(u, m), Scale(u, m)) == Mul(m, m);
    ProductBelowOne(Mul(scale, scale), Mul(m, m));
  }

  /** Shrinking by non-negative factors keeps a non-negative z. */
  lemma ShrunkKeepsSignOfZ(u: Vec3, m: real, scale: real)
    requires 0.0 <= u.z && 0.0 <= m && 0.0 <= scale
    ensures 0.0 <= Scale(Scale(u, m), scale).z
  {
    SignOfProduct(u.z, m);
    SignOfProduct(u.z * m, scale);
  }

  /** Kernel sample i of n (main.cpp:250-257): the raw sample normalised, multiplied by the fourth
      draw and then by the sample's scale. It lies in the upper half (z >= 0) and strictly inside
      the unit sphere. */
  function KernelSample(draws: seq<real>, start: nat, i: nat, n: nat, order: EvalOrder, sqrt: real -> real): (s: Vec3)
    requires IsSqrt(sqrt) && IsPermutation(order) && ValidDraws(draws)
    requires i < n && SampleStart(start, i) + 3 < |draws|
    requires RawSample(draws, start, i, order) != Zero
    ensures 0.0 <= s.z
    ensures 0.0 <= Dot(s, s) < 1.0
  {
    var raw := RawSample(draws, start, i, order);
    var u := Unit(raw, sqrt);
    var m := draws[SampleStart(start, i) + 3];
    var scale := SampleScale(i, n);
    UnitKeepsSignOfZ(raw, sqrt);
    ShrunkKeepsSignOfZ(u, m, scale);
    ShrunkUnitInsideSphere(u, m, scale);
    Scale(Scale(u, m), scale)
  }

  /** The kernel loop of main.cpp:249-259: `push_back` of one sample per iteration. It returns
      the kernel and the index of the next unused draw. */
  method GenerateKernel(kernelSize: nat, draws: seq<real>, start: nat, order: EvalOrder, sqrt: real -> real)
    returns (kernel: seq<Vec3>, next: nat)
    requires IsSqrt(sqrt) && IsPermutation(order) && ValidDraws(draws)
    requires SampleStart(start, kernelSize) <= |draws|
    requires forall i :: 0 <= i < kernelSize ==> RawSample(draws, start, i, order) != Zero
    ensures |kernel| == kernelSize && next == SampleStart(start, kernelSize)
    ensures forall i :: 0 <= i < kernelSize ==> kernel[i] == KernelSample(draws, start, i, kernelSize, order, sqrt)
  {
    kernel := [];
    next := start;
    var i := 0;
    while i < kernelSize
      invariant i <= kernelSize && next == SampleStart(start, i)
      invariant |kernel| == i
      invariant forall j :: 0 <= j < i ==> kernel[j] == KernelSample(draws, start, j, kernelSize, order, sqrt)
    {
      var raw := RawSample(draws, start, i, order);
      var sample := Unit(raw, sqrt);
      sample := Scale(sample, draws[next + 3]);
      var scale := Fraction(i, kernelSize);
      scale := Lerp(0.1, 1.0, Mul(scale, scale));
      sample := Scale(sample, scale);
      kernel := kernel + [sample];
      next := next + DRAWS_PER_SAMPLE;
      i := i + 1;
    }
  }

  /** Every sample of a generated kernel points into the upper hemisphere and lies strictly
      inside the unit sphere. */
  lemma KernelInHemisphere(kernel: seq<Vec3>, kernelSize: nat, draws: seq<real>, start: nat, order: EvalOrder,
                           sqrt: real -> real)
    requires IsSqrt(sqrt) && IsPermutation(order) && ValidDraws(draws)
    requires SampleStart(start, kernelSize) <= |draws|
    requires forall i :: 0 <= i < kernelSize ==> RawSample(draws, start, i, order) != Zero
    requires |kernel| == kernelSize
    requires forall i :: 0 <= i < kernelSize ==> kernel[i] == KernelSample(draws, start, i, kernelSize, order, sqrt)
    ensures forall i :: 0 <= i < |kernel| ==> 0.0 <= kernel[i].z && Dot(kernel[i], kernel[i]) < 1.0
  {
    forall i | 0 <= i < |kernel|
      ensures 0.0 <= kernel[i].z && Dot(kernel[i], kernel[i]) < 1.0
    {
      assert kernel[i] == KernelSample(draws, start, i, kernelSize, order, sqrt);
    }
  }

  /** Noise entry j (main.cpp:264): `glm::vec3(r*2-1, r*2-1, 0)`. Which of the two draws goes to
      x depends on the order in which the compiler evaluates the first two arguments. The entry
      rotates about the z axis: x and y lie in [-1, 1) and z is exactly 0. */
  function NoiseSample(draws: seq<real>, start: nat, j: nat, order: EvalOrder): (v: Vec3)
    requires ValidDraws(draws) && start + j * DRAWS_PER_NOISE + 1 < |draws|
    ensures -1.0 <= v.x < 1.0 && -1.0 <= v.y < 1.0 && v.z == 0.0
  {
    var k := start + j * DRAWS_PER_NOISE;
    var (dx, dy) := if order.x < order.y then (draws[k], draws[k + 1]) else (draws[k + 1], draws[k]);
    Vec3(dx * 2.0 - 1.0, dy * 2.0 - 1.0, 0.0)
  }

  /** The noise loop of main.cpp:263-266: sixteen `push_back`s, one entry per iteration. */
  method GenerateNoise(draws: seq<real>, start: nat, order: EvalOrder) returns (noise: seq<Vec3>, next: nat)
    requires ValidDraws(draws) && start + NOISE_COUNT * DRAWS_PER_NOISE <= |draws|
    ensures |noise| == NOISE_COUNT && next == start + NOISE_COUNT * DRAWS_PER_NOISE
    ensures forall j :: 0 <= j < NOISE_COUNT ==> noise[j] == NoiseSample(draws, start, j, order)
  {
    noise := [];
    next := start;
    var i := 0;
    while i < NOISE_COUNT
      invariant i <= NOISE_COUNT && next == start + i * DRAWS_PER_NOISE
      invariant |noise| == i
      invariant forall j :: 0 <= j < i ==> noise[j] == NoiseSample(draws, start, j, order)
    {
      var n := NoiseSample(draws, start, i, order);
      noise := noise + [n];
      next := next + DRAWS_PER_NOISE;
      i := i + 1;
    }
  }

  /** The sample kernel and the noise tile as main.cpp:241-271 builds them from one generator:
      the kernel takes the first draws and the noise the following ones. The noise has exactly
      the 4 x 4 texels the upload at main.cpp:271 reads. The two constructor calls are separate
      expressions, so each has its own evaluation order. */
  method GenerateSsaoData(draws: seq<real>, order: EvalOrder, noiseOrder: EvalOrder, sqrt: real -> real)
    returns (kernel: seq<Vec3>, noise: seq<Vec3>)
    requires IsSqrt(sqrt) && IsPermutation(order) && ValidDraws(draws)
    requires SampleStart(0, KERNEL_SIZE) + NOISE_COUNT * DRAWS_PER_NOISE <= |draws|
    requires forall i :: 0 <= i < KERNEL_SIZE ==> RawSample(draws, 0, i, order) != Zero
    ensures |kernel| == KERNEL_SIZE && |noise| == NOISE_TILE * NOISE_TILE
    ensures forall i :: 0 <= i < KERNEL_SIZE ==> 0.0 <= kernel[i].z && Dot(kernel[i], kernel[i]) < 1.0
    ensures forall i :: 0 <= i < KERNEL_SIZE ==> kernel[i] == KernelSample(draws, 0, i, KERNEL_SIZE, order, sqrt)
    ensures forall j :: 0 <= j < |noise| ==> noise[j] == NoiseSample(draws, SampleStart(0, KERNEL_SIZE), j, noiseOrder)
  {
    var next;
    kernel, next := GenerateKernel(KERNEL_SIZE, draws, 0, order, sqrt);
    KernelInHemisphere(kernel, KERNEL_SIZE, draws, 0, order, sqrt);
    noise, next := GenerateNoise(draws, next, noiseOrder);
  }
}
