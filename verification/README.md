# SSAO demo: PLY reader and frame set-up, modelled in Dafny

The program is an OpenGL demo of screen-space ambient occlusion (SSAO). It loads a triangle
mesh from an ASCII PLY file (`PlyReader::readObj`, plyreader.h). It builds a sample kernel
and a noise tile for the occlusion shader. Then it runs a deferred-shading frame loop:
a geometry pass, an occlusion pass, a blur pass and a composition pass. That loop
re-allocates its render targets when the window is resized (main.cpp).

The model has five modules:

- `Vectors` (vectors.dfy): three-component real vectors, the dot product and the length.
  It also holds the normalisation `v / |v|`. `sqrt` is an abstract function argument. It is
  only known to return a non-negative square root (`IsSqrt`).
- `PlyLines` (ply_lines.dfy): the `while (getline)` loop of `readObj`.
  - `Classify` is the if/else-if chain. `Step` is one iteration and `Run` is the whole loop
    as a specification.
  - `ReadLine` is the imperative loop body, proved equal to `Step`. `ReadLines` is the loop,
    proved equal to `Run`.
  - Lemmas cover the branch order, the header lines, the "3 " prefix and the face-mode stickiness.
- `PlyNormals` (ply_normals.dfy): the normal computation of `readObj`.
  - `CrossProduct` is the source's lambda. `FaceNormals` and `NormalSum` are a reference
    definition of each vertex's accumulated normal.
  - `AccumulateNormals` and `NormalizeNormals` are the two in-place loops over a `real` array.
  - `VertexNormals` runs the zero-filled buffer and both loops. `ReadObj` is the line loop followed by it.
- `SsaoKernel` (ssao_kernel.dfy): `lerp`, the kernel loop and the noise loop.
  - The random generator becomes the sequence of values it draws.
  - The unspecified evaluation order of the `glm::vec3` constructor arguments is a parameter
    (`EvalOrder`).
- `FrameLoop` (frame_loop.dfy): the window-size protocol and the pass order.
  - It is a value-level specification (`Window`, `OnResize`, `Drain`, `FramePasses`).
  - The class `Renderer` holds the globals `g_width`, `g_height`, `g_windowResized` and
    `g_shouldBlur`, plus the viewport, the six render-target sizes and a log of the passes run.
    Its methods are proved against that specification.

## Model

| member | source | states |
|---|---|---|
| Vectors.Length | plyreader.h:130-131 | `sqrt(x*x+y*y+z*z)` is non-negative, squares to the squared length, and is positive for every non-zero vector |
| Vectors.Normalize | plyreader.h:130-133 | dividing each component by a positive length whose square is the squared length gives a vector of squared length 1; scaling it back by the length restores the input |
| Vectors.Unit | plyreader.h:130-133 | the normalisation of a non-zero vector has unit length and points the same way: scaling it by the vector's length gives the vector back |
| PlyLines.FindFrom | plyreader.h:16 | `find(pat, from)` returns the first occurrence at or after `from`; no occurrence before it; `None` (npos) exactly when there is none |
| PlyLines.Find | plyreader.h:16-38 | `find(pat)` returns the first occurrence of `pat`; `None` exactly when `pat` occurs nowhere |
| PlyLines.FindZeroIffPrefix | plyreader.h:38 | `line.find("3 ") == 0` holds exactly when the line starts with the pattern |
| PlyLines.Classify | plyreader.h:16-70 | the branch chosen for a line; specified by `ClassifyBranches`, `TriangleIffPrefix`, `TriangleIgnoresMode`, `CountLinesChangeNothing` and `VertexModeTriangle` |
| PlyLines.ClassifyBranches | plyreader.h:16-70 | each branch is taken exactly when its test is the first to hold: "element vertex"; else "element face"; else "end_header"; else (for a line with no keyword and no "3 " prefix) vertex mode, then face mode, then neither (ignored) |
| PlyLines.VertexModeAppends | plyreader.h:51-60 | in vertex mode, a data line without the "3 " prefix appends its three coordinates to `vertices` and changes nothing else |
| PlyLines.FaceIndices | plyreader.h:43-49 | a face line contributes exactly three indices: extractions 2 to 4, the count being overwritten |
| PlyLines.VertexCoords | plyreader.h:53-59 | a vertex line contributes exactly three coordinates |
| PlyLines.Step | plyreader.h:16-70 | one iteration appends three coordinates exactly on a vertex-mode data line, three indices exactly on a triangle or face-mode line, and nothing otherwise |
| PlyLines.StepAddsTriples | plyreader.h:16-70 | one iteration grows each buffer by nothing or by exactly one triple |
| PlyLines.Run | plyreader.h:15-71 | after any sequence of lines, both buffers hold whole triples (lengths are multiples of 3) |
| PlyLines.ReadLine | plyreader.h:16-70 | the imperative if/else-if chain on one line updates the two flags and the two buffers exactly as `Step` does |
| PlyLines.ReadLines | plyreader.h:14-71 | the imperative line loop, with its two flags and two buffers, produces exactly the buffers of `Run` |
| PlyLines.CountLinesChangeNothing | plyreader.h:16-33 | a line containing "element vertex" or "element face" changes neither flag nor buffer, in any mode |
| PlyLines.TriangleIgnoresMode | plyreader.h:38-70 | whether a line is a triangle does not depend on the two mode flags |
| PlyLines.TriangleIffPrefix | plyreader.h:16-42 | a line is handled by the triangle branch exactly when it contains no header keyword and starts with "3 " |
| PlyLines.VertexModeTriangle | plyreader.h:38-60 | in vertex mode, a data line starting with "3 " leaves vertex mode, enters face mode and appends a face, not a vertex |
| PlyLines.HeaderAppendsNothing | plyreader.h:9-37 | lines before any "end_header" (and without a "3 " prefix) leave both flags false and both buffers empty |
| PlyLines.FaceModeIsSticky | plyreader.h:34-70 | once in face mode, and until a line containing "end_header", the vertex buffer is fixed, the flags stay put, and each data line appends three indices |
| PlyLines.TriangleEntersFaceMode | plyreader.h:38-42 | after a "3 " line, `inVertices` is false and `inFaces` is true |
| PlyLines.EndHeaderEntersVertexMode | plyreader.h:34-37 | an "end_header" line sets vertex mode, from any mode, and changes nothing else: the only way out of face mode |
| PlyNormals.CrossProduct | plyreader.h:78-96 | the lambda, with its negated y, equals the textbook cross product `Cross` of the edges p2 - p1 and p3 - p1 |
| PlyNormals.CrossProductOrthogonal | plyreader.h:78-96 | the face normal is orthogonal to both edges p2 - p1 and p3 - p1 |
| PlyNormals.CrossProductSwap | plyreader.h:78-96 | swapping p2 and p3 negates the normal |
| PlyNormals.AddAt | plyreader.h:119-121 | three `+=` grow vertex i's triple by the vector and keep the buffer length |
| PlyNormals.AddAtGet3 | plyreader.h:119-127 | after the three `+=` at vertex i, i's triple has grown by the vector and every other vertex's triple is unchanged |
| PlyNormals.InBoundsIffValid | plyreader.h:97-128 | for whole triples, every index addresses a triple exactly when every index is below the vertex count |
| PlyNormals.FaceNormal | plyreader.h:98-115 | the normal of triangle t, from the vertex triples its three indices address, is orthogonal to both of its edges |
| PlyNormals.FaceNormals | plyreader.h:97-116 | one face normal per index triple |
| PlyNormals.AddTriangle | plyreader.h:119-127 | the nine `+=` of one triangle keep the buffer length |
| PlyNormals.AddTriangleGet3 | plyreader.h:119-127 | after one triangle, each vertex's triple has grown by the normal at each corner naming it, and a non-corner vertex's triple is unchanged |
| PlyNormals.Multiplicity | plyreader.h:98-100 | a vertex is a corner of a triangle between 0 and 3 times, and 0 times exactly when it is none of the corners |
| PlyNormals.TriangleShareCounts | plyreader.h:119-127 | a triangle adds its normal to a vertex once per corner that is that vertex (multiplicity) |
| PlyNormals.NormalSum | plyreader.h:97-128 | the reference sum, over the first t triangles, of each face normal times the number of its corners that are vertex v; specified by `NormalSumStep`, `TriangleShareCounts` and `UnusedVertexSumIsZero`, and tied to the loop by `AccumulateNormals` |
| PlyNormals.VertexNormalSum | plyreader.h:97-128 | `NormalSum` over all triangles; `AccumulateNormals` proves the loop adds exactly this to each vertex, and `ReadObj` that each returned normal is its unit vector |
| PlyNormals.UnusedVertexSumIsZero | plyreader.h:97-128 | a vertex that no triangle names accumulates nothing |
| PlyNormals.AddAtInPlace | plyreader.h:119-121 | the three in-place `+=` at one corner leave the array equal to `AddAt` of its old contents |
| PlyNormals.AddTriangleInPlace | plyreader.h:119-127 | the nine in-place additions leave the array equal to `AddTriangle` of its old contents, and each vertex triple grown by the triangle's share at it |
| PlyNormals.AccumulateTriangle | plyreader.h:98-127 | one iteration reads the three corners, takes their cross product (the face normal of that triangle) and adds it at each corner |
| PlyNormals.AccumulateStep | plyreader.h:97-128 | adding triangle t's share to buffers holding each vertex's sum over the first t triangles gives the sum over the first t + 1 |
| PlyNormals.AccumulateNormals | plyreader.h:97-128 | after the loop, each vertex's triple has grown by the sum of the face normals of all triangles naming it, counted with multiplicity |
| PlyNormals.NormalizeNormals | plyreader.h:130-144 | every triple is replaced in place by the unit vector in its direction |
| PlyNormals.VertexNormals | plyreader.h:73-144 | the normal buffer is fresh and as long as `vertices`, and each vertex normal is the unit vector along the sum of the face normals of the triangles naming it |
| PlyNormals.ReadObj | plyreader.h:5-167 | the returned vertices and indices are those of the line loop; `normals` is as long as `vertices`; each vertex normal is the unit vector along the sum of the face normals of the triangles naming it |
| SsaoKernel.Lerp | main.cpp:246-248 | `lerp(a,b,0) = a`, `lerp(a,b,1) = b`, and for `a < b` and f in [0,1) the result lies in [a, b) |
| SsaoKernel.LerpMonotone | main.cpp:246-248 | for `a <= b`, `lerp` does not decrease as f grows |
| SsaoKernel.Fraction | main.cpp:255 | `float(i)/kernelSize` lies in [0, 1) for i below the kernel size |
| SsaoKernel.FractionMonotone | main.cpp:255 | the fraction does not decrease with i |
| SsaoKernel.SampleScale | main.cpp:254-256 | the scale `lerp(0.1, 1.0, (i/n)^2)` lies in [0.1, 1.0) |
| SsaoKernel.FirstSampleScale | main.cpp:254-256 | the first sample's scale is exactly 0.1 |
| SsaoKernel.SampleScaleMonotone | main.cpp:254-256 | the scale does not decrease along the kernel |
| SsaoKernel.RawSample | main.cpp:250 | for draws in [0, 1), the raw sample has x and y in [-1, 1) and z in [0, 1), whichever draw each argument receives |
| SsaoKernel.UnitKeepsSignOfZ | main.cpp:250-251 | normalising a vector with z >= 0 keeps z >= 0 |
| SsaoKernel.ShrunkUnitInsideSphere | main.cpp:251-256 | a unit vector multiplied by a draw in [0,1) and then a factor in [0,1) lies strictly inside the unit sphere |
| SsaoKernel.ShrunkKeepsSignOfZ | main.cpp:252-256 | multiplying by non-negative factors keeps z >= 0 |
| SsaoKernel.KernelSample | main.cpp:250-257 | every kernel sample has z >= 0 and squared length in [0, 1), whatever the argument evaluation order |
| SsaoKernel.GenerateKernel | main.cpp:249-259 | the loop yields exactly `kernelSize` samples, sample i being `KernelSample` of its four draws, and consumes four draws per sample |
| SsaoKernel.KernelInHemisphere | main.cpp:249-259 | every sample of the generated kernel lies in the upper half of the unit sphere, strictly inside it |
| SsaoKernel.NoiseSample | main.cpp:264 | each noise entry has x and y in [-1, 1) and z exactly 0 |
| SsaoKernel.GenerateNoise | main.cpp:262-266 | the loop yields exactly 16 entries, entry j from draws 2j and 2j+1 after the kernel's |
| SsaoKernel.GenerateSsaoData | main.cpp:241-271 | the kernel has `kernelSize` = 4 samples in the upper unit hemisphere, and the noise has exactly the 4 x 4 entries the texture upload reads; the noise's argument order is a parameter of its own |
| FrameLoop.OnResize | main.cpp:44-48 | the callback records the new size and raises the flag; viewport and render targets are untouched |
| FrameLoop.Reallocate | main.cpp:325-337 | all six targets take the given size |
| FrameLoop.Drain | main.cpp:320-338 | with the flag raised, the viewport and all six targets take the recorded size and the flag is cleared; without it nothing changes |
| FrameLoop.OnResizeKeepsConsistent | main.cpp:44-48 | the callback keeps every target at the viewport's size |
| FrameLoop.DrainMakesTargetsMatchWindow | main.cpp:320-349 | after the drain, before the first pass, all six targets share the window size |
| FrameLoop.DrainIdempotent | main.cpp:320-338 | draining a second time changes nothing |
| FrameLoop.AfterEvents | main.cpp:433 | after the callbacks of one poll, the size is the last one delivered and the flag is raised; targets and viewport are untouched |
| FrameLoop.ResizesCoalesce | main.cpp:44-48 | several callbacks between two frames coalesce: the next drain applies only the last size |
| FrameLoop.ResizeRoundTrip | main.cpp:320-338 | resizing to (W, H) and back to (W0, H0), with a frame in between, restores the settled original state |
| FrameLoop.BlurUniform | main.cpp:393 | the blur uniform is 0 or 1, and 1 exactly when blurring is on |
| FrameLoop.FramePasses | main.cpp:349-417 | each frame runs four passes in the order geometry, occlusion (given the window size), blur (given the flag), composition |
| FrameLoop.Renderer.constructor | main.cpp:166-239 | at start-up every target is created at the queried window size, the viewport is that size, no resize is pending and blurring is on |
| FrameLoop.Renderer.OnWindowResize | main.cpp:44-48 | the callback's effect on the renderer is `OnResize`; the blur flag and the passes are untouched |
| FrameLoop.Renderer.DrainResize | main.cpp:320-338 | the drain's effect on the renderer is `Drain` |
| FrameLoop.Renderer.RunPasses | main.cpp:349-417 | the four passes are appended in order, while every target has the window size |
| FrameLoop.Renderer.SetBlur | main.cpp:424 | the checkbox sets only the blur flag |
| FrameLoop.Renderer.Frame | main.cpp:317-435 | one iteration keeps the targets consistent, runs the four passes with the drained size and the previous frame's blur flag, then applies the polled callbacks |

## Left out

- Float rounding: all arithmetic is on reals. `sqrt` and `glm::normalize` are an abstract square root.
- PlyNormals.NormalizeNormals, PlyNormals.VertexNormals, PlyNormals.ReadObj: require every vertex's accumulated normal to be non-zero. The source divides by a zero length there (for example for a vertex no triangle names, see `UnusedVertexSumIsZero`) and stores NaN, which reals cannot represent.
- SsaoKernel.KernelSample, SsaoKernel.GenerateKernel, SsaoKernel.GenerateSsaoData: require each raw sample to be non-zero. The source normalises it unguarded (main.cpp:251), and a zero vector gives NaN.
- PlyNormals.ReadObj: requires every index to address a vertex triple. The source has no bounds check, and an out-of-range index is undefined behaviour.
- PlyNormals.AccumulateTriangle: computes `i1*3` on unbounded naturals. In the source this is `unsigned int` arithmetic, which wraps modulo 2^32. Wrapping needs an index of at least (2^32 − 2) / 3, rounded up (1431655765, whose `i1*3+1` is 2^32), which the bounds requirement admits only for a vertex buffer of 2^32 floats or more. For such buffers the source reads and writes the wrapped slot, while the model uses the unwrapped one.
- PlyLines.Step, PlyLines.ReadLine: an "element vertex" or "element face" line is a no-op, and the count on it is not modelled. In the source the count is an `int` passed to `reserve` as `(size_t)size*3` (plyreader.h:19-23, 28-32). A negative count, or one too large to allocate, makes `reserve` throw (`std::length_error` or `std::bad_alloc`), so `readObj` does not return. The model has no such failure path. For counts that can be allocated, `reserve` only changes capacity.
- `ifstream`, `getline` and `stringstream`: the file is a sequence of lines. The numeric extractions are the `Scanner` functions, whose results on malformed lines are left unspecified. A file that fails to open yields no lines.
- The zero-fill loop of plyreader.h:73-76 is the allocation of a zero-filled array of the same length. The commented-out bounding-box code (plyreader.h:146-161) is left out.
- `std::default_random_engine` and `uniform_real_distribution`: they become a sequence of draws, each in [0, 1). The methods require enough draws.
- SsaoKernel.NoiseSample: only the relative order of the two random arguments is modelled. The third argument is the constant 0. The noise constructor call has its own evaluation order, separate from the kernel's (`GenerateSsaoData` takes both).
- The SSAO estimation, blur and composition shaders, shader.h, and every GL, GLFW and ImGui call (buffers, textures, framebuffers, uniforms other than the screen size and the blur flag, drawing, the UI apart from the blur checkbox, including the radius and bias sliders of main.cpp:425-426, which only set the shader uniforms `g_radius` and `g_bias`): these are foreign calls and shader code. Render targets are modelled only by their sizes.
- `processInput` (camera movement) and the projection matrices (main.cpp:302, 322): float matrix and trigonometry numerics.
- FrameLoop.Renderer.Frame: models one iteration of the loop. The loop's exit condition (escape key or window close) and the timing are input and clock reads.
