/** The line loop of `PlyReader::readObj` (plyreader.h): every line of the file is classified by
    substring tests and by two mode flags, and vertex and face lines append exactly three numbers
    to the flat `vertices` or `indices` buffer. Numeric extraction through `std::stringstream` is
    abstract: a `Scanner` says what the extractions of a line yield. */
module PlyLines {

  datatype Option<T> = None | Some(value: T)

  /** `unsigned int`, the element type of the index buffer. */
  type Uint32 = n: nat | n < 0x1_0000_0000

  /** The two kinds of extraction the loop performs on a data line: three floats
      (`lineStream >> v1 >> v2 >> v3`) and four unsigned ints (`lineStream >> i1 >> i1 >> i2 >> i3`,
      whose first value is the per-face vertex count). What a failed extraction yields is not
      specified, so both are arbitrary functions of the line. */
  datatype Scanner = Scanner(floats: string -> (real, real, real),
                             uints: string -> (Uint32, Uint32, Uint32, Uint32))

  const VERTEX_COUNT_KEY := "element vertex"
  const FACE_COUNT_KEY := "element face"
  const END_HEADER_KEY := "end_header"
  const TRIANGLE_PREFIX := "3 "

  predicate OccursAt(s: string, pat: string, k: nat) {
    k + |pat| <= |s| && s[k..k + |pat|] == pat
  }

  /** `s.find(pat, from)`: the first position at or after `from` where `pat` occurs. */
  function FindFrom(s: string, pat: string, from: nat): (r: Option<nat>)
    ensures r.Some? ==> from <= r.value && OccursAt(s, pat, r.value)
    ensures r.Some? ==> forall k :: from <= k < r.value ==> !OccursAt(s, pat, k)
    ensures r.None? ==> forall k :: from <= k ==> !OccursAt(s, pat, k)
    decreases |s| + 1 - from
  {
    if |s| < from + |pat| then None
    else if s[from..from + |pat|] == pat then Some(from)
    else FindFrom(s, pat, from + 1)
  }

  /** `s.find(pat)`; `None` stands for `std::string::npos`. */
  function Find(s: string, pat: string): (r: Option<nat>)
    ensures r.Some? ==> OccursAt(s, pat, r.value)
    ensures r.Some? ==> forall k :: 0 <= k < r.value ==> !OccursAt(s, pat, k)
    ensures r.None? <==> forall k :: 0 <= k ==> !OccursAt(s, pat, k)
  {
    FindFrom(s, pat, 0)
  }

  /** `s.find(pat) != std::string::npos` */
  predicate Contains(s: string, pat: string) {
    Find(s, pat).Some?
  }

  /** `s.find(pat) == 0` holds exactly when `pat` is a prefix of `s`. */
  lemma FindZeroIffPrefix(s: string, pat: string)
    ensures Find(s, pat) == Some(0) <==> |pat| <= |s| && s[..|pat|] == pat
  {
    if |pat| <= |s| && s[..|pat|] == pat {
      assert OccursAt(s, pat, 0);
    }
  }

  /** The branch of the loop body that handles a line. */
  datatype LineKind =
    | VertexCount  // contains "element vertex": reserves capacity only
    | FaceCount    // contains "element face": reserves capacity only
    | EndHeader    // contains "end_header": enters vertex mode
    | Triangle     // starts with "3 ": leaves vertex mode, enters face mode, appends a face
    | VertexData   // any other line in vertex mode: appends a vertex
    | FaceData     // any other line in face mode: appends a face
    | Ignored      // any other line before "end_header"

  /** The if/else-if chain of plyreader.h:16-70, in the source's order. */
  function Classify(line: string, inVertices: bool, inFaces: bool): LineKind {
    if Contains(line, VERTEX_COUNT_KEY) then VertexCount
    else if Contains(line, FACE_COUNT_KEY) then FaceCount
    else if Contains(line, END_HEADER_KEY) then EndHeader
    else if Find(line, TRIANGLE_PREFIX) == Some(0) then Triangle
    else if inVertices then VertexData
    else if inFaces then FaceData
    else Ignored
  }

  /** No header keyword in the line: the lines the data branches can see. */
  predicate IsDataLine(line: string) {
    !Contains(line, VERTEX_COUNT_KEY) && !Contains(line, FACE_COUNT_KEY) && !Contains(line, END_HEADER_KEY)
  }

  /** The line starts with "3 ", the per-face vertex count of a triangle. */
  predicate StartsWithTriangle(line: string) {
    |TRIANGLE_PREFIX| <= |line| && line[..|TRIANGLE_PREFIX|] == TRIANGLE_PREFIX
  }

  /** The branch each line takes, both ways: the keyword tests in order, then the "3 " prefix,
      then the modes, vertex mode before face mode. */
  lemma ClassifyBranches(line: string, inVertices: bool, inFaces: bool)
    ensures Classify(line, inVertices, inFaces) == VertexCount <==> Contains(line, VERTEX_COUNT_KEY)
    ensures Classify(line, inVertices, inFaces) == FaceCount
            <==> !Contains(line, VERTEX_COUNT_KEY) && Contains(line, FACE_COUNT_KEY)
    ensures Classify(line, inVertices, inFaces) == EndHeader
            <==> !Contains(line, VERTEX_COUNT_KEY) && !Contains(line, FACE_COUNT_KEY) && Contains(line, END_HEADER_KEY)
    ensures Classify(line, inVertices, inFaces) == VertexData
            <==> IsDataLine(line) && !StartsWithTriangle(line) && inVertices
    ensures Classify(line, inVertices, inFaces) == FaceData
            <==> IsDataLine(line) && !StartsWithTriangle(line) && !inVertices && inFaces
    ensures Classify(line, inVertices, inFaces) == Ignored
            <==> IsDataLine(line) && !StartsWithTriangle(line) && !inVertices && !inFaces
  {
    FindZeroIffPrefix(line, TRIANGLE_PREFIX);
  }

  /** The local state of the loop: the two flags and the two buffers. */
  datatype Reader = Reader(inVertices: bool, inFaces: bool, vertices: seq<real>, indices: seq<Uint32>)

  const START := Reader(false, false, [], [])

  /** The indices a face line contributes: extractions 2 to 4; the first (the count) is read into
      the same variable as the second and so overwritten. */
  function FaceIndices(line: string, scan: Scanner): (r: seq<Uint32>)
    ensures |r| == 3
  {
    var (_, i1, i2, i3) := scan.uints(line);
    [i1, i2, i3]
  }

  /** The coordinates a vertex line contributes. */
  function VertexCoords(line: string, scan: Scanner): (r: seq<real>)
    ensures |r| == 3
  {
    var (v1, v2, v3) := scan.floats(line);
    [v1, v2, v3]
  }

  /** One iteration of the loop body. */
  function Step(r: Reader, line: string, scan: Scanner): (r': Reader)
    ensures r'.vertices == r.vertices + (if Classify(line, r.inVertices, r.inFaces) == VertexData
                                         then VertexCoords(line, scan) else [])
    ensures r'.indices == r.indices + (if Classify(line, r.inVertices, r.inFaces) in {Triangle, FaceData}
                                       then FaceIndices(line, scan) else [])
  {
    match Classify(line, r.inVertices, r.inFaces)
    case VertexCount => r
    case FaceCount => r
    case EndHeader => r.(inVertices := true)
    case Triangle => Reader(false, true, r.vertices, r.indices + FaceIndices(line, scan))
    case VertexData => r.(vertices := r.vertices + VertexCoords(line, scan))
    case FaceData => r.(indices := r.indices + FaceIndices(line, scan))
    case Ignored => r
  }

  /** The state after the loop has consumed `lines`, in order. Both buffers grow in whole
      triples, so their lengths stay multiples of three. */
  function Run(lines: seq<string>, scan: Scanner): (r: Reader)
    ensures |r.vertices| % 3 == 0 && |r.indices| % 3 == 0
  {
    if |lines| == 0 then START
    else
      var prev := Run(lines[..|lines| - 1], scan);
      var r := Step(prev, lines[|lines| - 1], scan);
      StepAddsTriples(prev, lines[|lines| - 1], scan);
      TriplesStayWhole(|prev.vertices|, |r.vertices|);
      TriplesStayWhole(|prev.indices|, |r.indices|);
      r
  }

  /** One iteration grows each buffer by nothing or by one triple. */
  lemma StepAddsTriples(r: Reader, line: string, scan: Scanner)
    ensures |Step(r, line, scan).vertices| == |r.vertices| || |Step(r, line, scan).vertices| == |r.vertices| + 3
    ensures |Step(r, line, scan).indices| == |r.indices| || |Step(r, line, scan).indices| == |r.indices| + 3
  {
  }

  lemma TriplesStayWhole(before: nat, after: nat)
    requires before % 3 == 0 && (after == before || after == before + 3)
    ensures after % 3 == 0
  {
  }

  /** The body of the loop of plyreader.h:16-70 on one line: the if/else-if chain updates the two
      flags and appends to the two buffers exactly as `Step` says. */
  method ReadLine(inVertices: bool, inFaces: bool, vertices: seq<real>, indices: seq<Uint32>,
                  line: string, scan: Scanner)
    returns (inVertices': bool, inFaces': bool, vertices': seq<real>, indices': seq<Uint32>)
    ensures Reader(inVertices', inFaces', vertices', indices')
            == Step(Reader(inVertices, inFaces, vertices, indices), line, scan)
  {
    inVertices', inFaces', vertices', indices' := inVertices, inFaces, vertices, indices;
    if Contains(line, VERTEX_COUNT_KEY) {
      // vertices.reserve((size_t)size * 3): the count is not modelled
    } else if Contains(line, FACE_COUNT_KEY) {
      // indices.reserve((size_t)size * 3): the count is not modelled
    } else if Contains(line, END_HEADER_KEY) {
      inVertices' := true;
    } else if Find(line, TRIANGLE_PREFIX) == Some(0) {
      inVertices' := false;
      inFaces' := true;
      var (_, i1, i2, i3) := scan.uints(line);
      indices' := indices + [i1, i2, i3];
    } else if inVertices {
      var (v1, v2, v3) := scan.floats(line);
      vertices' := vertices + [v1, v2, v3];
    } else if inFaces {
      var (_, i1, i2, i3) := scan.uints(line);
      indices' := indices + [i1, i2, i3];
    }
  }

  /** The `while (std::getline(file, line))` loop of plyreader.h:15-71 over the file's lines. */
  method ReadLines(lines: seq<string>, scan: Scanner) returns (vertices: seq<real>, indices: seq<Uint32>)
    ensures vertices == Run(lines, scan).vertices
    ensures indices == Run(lines, scan).indices
  {
    var inVertices, inFaces := false, false;
    vertices, indices := [], [];
    var n := 0;
    while n < |lines|
      invariant n <= |lines|
      invariant Reader(inVertices, inFaces, vertices, indices) == Run(lines[..n], scan)
    {
      inVertices, inFaces, vertices, indices := ReadLine(inVertices, inFaces, vertices, indices, lines[n], scan);
      assert lines[..n + 1][..n] == lines[..n];
      n := n + 1;
    }
    assert lines[..n] == lines;
  }

  /** The "element vertex" and "element face" lines only reserve capacity; they change nothing
      else, whatever the mode and whatever else the line contains. */
  lemma CountLinesChangeNothing(r: Reader, line: string, scan: Scanner)
    requires Contains(line, VERTEX_COUNT_KEY) || Contains(line, FACE_COUNT_KEY)
    ensures Step(r, line, scan) == r
  {
  }

  /** The "3 " test does not look at the mode: a line that reaches it is a triangle in vertex
      mode, in face mode and before the header ends. In particular a vertex-mode line starting
      with "3 " ends vertex mode and is read as a face. */
  lemma TriangleIgnoresMode(line: string, v1: bool, f1: bool, v2: bool, f2: bool)
    ensures Classify(line, v1, f1) == Triangle <==> Classify(line, v2, f2) == Triangle
  {
  }

  /** A line is a triangle exactly when it has no header keyword and starts with "3 ". */
  lemma TriangleIffPrefix(line: string, inVertices: bool, inFaces: bool)
    ensures Classify(line, inVertices, inFaces) == Triangle
            <==> IsDataLine(line) && StartsWithTriangle(line)
  {
    FindZeroIffPrefix(line, TRIANGLE_PREFIX);
  }

  /** In vertex mode, every other data line appends its three coordinates to the vertex buffer
      and changes nothing else. */
  lemma VertexModeAppends(r: Reader, line: string, scan: Scanner)
    requires r.inVertices && IsDataLine(line) && !StartsWithTriangle(line)
    ensures Step(r, line, scan) == r.(vertices := r.vertices + VertexCoords(line, scan))
  {
    FindZeroIffPrefix(line, TRIANGLE_PREFIX);
  }

  /** In vertex mode, a data line starting with "3 " is read as a face and ends vertex mode. */
  lemma VertexModeTriangle(r: Reader, line: string, scan: Scanner)
    requires r.inVertices && IsDataLine(line)
    requires StartsWithTriangle(line)
    ensures Step(r, line, scan) == Reader(false, true, r.vertices, r.indices + FaceIndices(line, scan))
  {
    FindZeroIffPrefix(line, TRIANGLE_PREFIX);
  }

  /** Before any line containing "end_header" (and without a line starting with "3 "), both
      flags stay false and nothing is appended. */
  lemma {:induction false} HeaderAppendsNothing(lines: seq<string>, scan: Scanner)
    requires forall k :: 0 <= k < |lines| ==>
               !Contains(lines[k], END_HEADER_KEY) && Find(lines[k], TRIANGLE_PREFIX) != Some(0)
    ensures Run(lines, scan) == START
  {
    if |lines| > 0 {
      HeaderAppendsNothing(lines[..|lines| - 1], scan);
    }
  }

  /** The number of lines without a header keyword. */
  function DataLines(lines: seq<string>): (n: nat)
    ensures n <= |lines|
  {
    if |lines| == 0 then 0
    else DataLines(lines[..|lines| - 1]) + (if IsDataLine(lines[|lines| - 1]) then 1 else 0)
  }

  /** Once in face mode (after a "3 " line), no further line is taken as a vertex until a line
      containing "end_header" comes: the vertex buffer is fixed, the flags stay put, and every
      line without a header keyword appends one face. */
  lemma {:induction false} FaceModeIsSticky(prefix: seq<string>, rest: seq<string>, scan: Scanner)
    requires !Run(prefix, scan).inVertices && Run(prefix, scan).inFaces
    requires forall k :: 0 <= k < |rest| ==> !Contains(rest[k], END_HEADER_KEY)
    ensures !Run(prefix + rest, scan).inVertices && Run(prefix + rest, scan).inFaces
    ensures Run(prefix + rest, scan).vertices == Run(prefix, scan).vertices
    ensures |Run(prefix + rest, scan).indices| == |Run(prefix, scan).indices| + 3 * DataLines(rest)
  {
    if |rest| == 0 {
      assert prefix + rest == prefix;
    } else {
      var init, last := rest[..|rest| - 1], rest[|rest| - 1];
      FaceModeIsSticky(prefix, init, scan);
      assert (prefix + rest)[..|prefix + rest| - 1] == prefix + init;
      assert (prefix + rest)[|prefix + rest| - 1] == last;
      assert Run(prefix + rest, scan) == Step(Run(prefix + init, scan), last, scan);
      FaceModeStep(Run(prefix + init, scan), last, scan);
      assert DataLines(rest) == DataLines(init) + (if IsDataLine(last) then 1 else 0);
    }
  }

  /** One line in face mode without "end_header": the modes stay, the vertex buffer is kept, and
      the index buffer grows by a triple exactly when the line has no header keyword. */
  lemma FaceModeStep(r: Reader, line: string, scan: Scanner)
    requires !r.inVertices && r.inFaces && !Contains(line, END_HEADER_KEY)
    ensures !Step(r, line, scan).inVertices && Step(r, line, scan).inFaces
    ensures Step(r, line, scan).vertices == r.vertices
    ensures |Step(r, line, scan).indices| == |r.indices| + (if IsDataLine(line) then 3 else 0)
  {
  }

  /** A line containing "end_header" (and no count keyword) sets vertex mode again, whatever the
      mode was, and changes nothing else: it is the one way out of face mode. */
  lemma EndHeaderEntersVertexMode(r: Reader, line: string, scan: Scanner)
    requires Classify(line, r.inVertices, r.inFaces) == EndHeader
    ensures Step(r, line, scan) == r.(inVertices := true)
  {
  }

  /** A "3 " line always leaves the reader in face mode. */
  lemma TriangleEntersFaceMode(r: Reader, line: string, scan: Scanner)
    requires Classify(line, r.inVertices, r.inFaces) == Triangle
    ensures !Step(r, line, scan).inVertices && Step(r, line, scan).inFaces
  {
  }
}
