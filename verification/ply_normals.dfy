/** The normal computation of `PlyReader::readObj` (plyreader.h:73-166): a zero-filled `normals`
    buffer as long as `vertices`; for every triangle its (unnormalised) cross product is added in
    place to the three slots of each of its three vertices; then every triple of the buffer is
    overwritten in place by its normalisation. */
module PlyNormals {
  import opened Vectors
  import opened PlyLines

  /** The textbook cross product a × b. */
  function Cross(a: Vec3, b: Vec3): Vec3 {
    Vec3(a.y * b.z - a.z * b.y, a.z * b.x - a.x * b.z, a.x * b.y - a.y * b.x)
  }

  /** The `crossProduct` lambda, with the y component written as the negation of
      `v1x * v2z - v2x * v1z`: it is the textbook cross product of the edges p2 - p1 and p3 - p1. */
  function CrossProduct(p1: Vec3, p2: Vec3, p3: Vec3): (n: Vec3)
    ensures n == Cross(Sub(p2, p1), Sub(p3, p1))
  {
    var v1 := Sub(p2, p1);
    var v2 := Sub(p3, p1);
    Vec3(v1.y * v2.z - v2.y * v1.z, (v1.x * v2.z - v2.x * v1.z) * -1.0, v1.x * v2.y - v2.x * v1.y)
  }

  /** The face normal is orthogonal to both edges of the triangle, so to its plane. */
  lemma CrossProductOrthogonal(p1: Vec3, p2: Vec3, p3: Vec3)
    ensures Dot(CrossProduct(p1, p2, p3), Sub(p2, p1)) == 0.0
    ensures Dot(CrossProduct(p1, p2, p3), Sub(p3, p1)) == 0.0
  {
  }

  /** Swapping the second and third corner reverses the winding and negates the normal. */
  lemma CrossProductSwap(p1: Vec3, p2: Vec3, p3: Vec3)
    ensures CrossProduct(p1, p3, p2) == Scale(CrossProduct(p1, p2, p3), -1.0)
  {
  }

  /** The triple of a flat buffer that belongs to vertex i: slots i*3+0, i*3+1, i*3+2. */
  function Get3(s: seq<real>, i: nat): Vec3
    requires i * 3 + 2 < |s|
  {
    Vec3(s[i * 3], s[i * 3 + 1], s[i * 3 + 2])
  }

  /** `s[i*3+0] += v.x; s[i*3+1] += v.y; s[i*3+2] += v.z`: vertex i's triple grows by v, and every
      other slot (so every other vertex's triple) is unchanged. */
  function AddAt(s: seq<real>, i: nat, v: Vec3): (s': seq<real>)
    requires i * 3 + 2 < |s|
    ensures |s'| == |s|
    ensures Get3(s', i) == Add(Get3(s, i), v)
  {
    s[i * 3 := s[i * 3] + v.x][i * 3 + 1 := s[i * 3 + 1] + v.y][i * 3 + 2 := s[i * 3 + 2] + v.z]
  }

  /** Every index names a vertex of a buffer with vertexCount vertices. */
  predicate ValidIndices(indices: seq<Uint32>, vertexCount: nat) {
    forall k :: 0 <= k < |indices| ==> indices[k] < vertexCount
  }

  /** Every index addresses a whole triple of a buffer of length n: the code reads
      `vertices[i*3+2]` and writes `normals[i*3+2]` without a bounds check. */
  predicate InBounds(indices: seq<Uint32>, n: nat) {
    forall k :: 0 <= k < |indices| ==> indices[k] * 3 + 2 < n
  }

  /** A vertex index below the triple count addresses a whole triple of the buffer. */
  lemma TripleInRange(n: nat, i: nat)
    requires n % 3 == 0 && i < n / 3
    ensures i * 3 + 2 < n
  {
  }

  /** For a buffer of whole triples, an index addresses a triple exactly when it is below the
      vertex count. */
  lemma InBoundsIffValid(indices: seq<Uint32>, n: nat)
    requires n % 3 == 0
    ensures InBounds(indices, n) <==> ValidIndices(indices, n / 3)
  {
    if ValidIndices(indices, n / 3) {
      forall k | 0 <= k < |indices|
        ensures indices[k] * 3 + 2 < n
      {
        TripleInRange(n, indices[k]);
      }
    }
  }

  /** A mesh as `readObj` returns it: whole vertex and index triples, each index addressing a
      vertex triple. */
  predicate IsMesh(vertices: seq<real>, indices: seq<Uint32>) {
    |vertices| % 3 == 0 && |indices| % 3 == 0 && InBounds(indices, |vertices|)
  }

  /** The face normal of triangle t: the cross product of its three corners, in index order,
      orthogonal to the triangle's plane. */
  function FaceNormal(vertices: seq<real>, indices: seq<Uint32>, t: nat): (n: Vec3)
    requires IsMesh(vertices, indices) && t * 3 + 2 < |indices|
    ensures var p1, p2, p3 := Get3(vertices, indices[t * 3]), Get3(vertices, indices[t * 3 + 1]),
                              Get3(vertices, indices[t * 3 + 2]);
            Dot(n, Sub(p2, p1)) == 0.0 && Dot(n, Sub(p3, p1)) == 0.0
  {
    CrossProductOrthogonal(Get3(vertices, indices[t * 3]), Get3(vertices, indices[t * 3 + 1]),
                           Get3(vertices, indices[t * 3 + 2]));
    CrossProduct(Get3(vertices, indices[t * 3]), Get3(vertices, indices[t * 3 + 1]),
                 Get3(vertices, indices[t * 3 + 2]))
  }

  /** The face normal of every triangle, in order. */
  function FaceNormals(vertices: seq<real>, indices: seq<Uint32>): (faces: seq<Vec3>)
    requires IsMesh(vertices, indices)
    ensures |faces| * 3 == |indices|
  {
    seq(|indices| / 3, t requires 0 <= t < |indices| / 3 => FaceNormal(vertices, indices, t))
  }

  /** Entry t of the face normals is the cross product of triangle t's corners. */
  lemma FaceNormalAt(vertices: seq<real>, indices: seq<Uint32>, i: nat, t: nat)
    requires IsMesh(vertices, indices) && i == t * 3 && i + 2 < |indices|
    ensures t < |FaceNormals(vertices, indices)|
    ensures FaceNormals(vertices, indices)[t]
            == CrossProduct(Get3(vertices, indices[i]), Get3(vertices, indices[i + 1]), Get3(vertices, indices[i + 2]))
  {
  }

  /** Reading any triple after `AddAt`: it grew by n if it is vertex i's, else it is unchanged. */
  lemma AddAtGet3(s: seq<real>, i: nat, n: Vec3, v: nat)
    requires i * 3 + 2 < |s| && v * 3 + 2 < |s|
    ensures Get3(AddAt(s, i, n), v) == if v == i then Add(Get3(s, v), n) else Get3(s, v)
  {
  }

  /** The nine `+=` of one loop iteration: the normal n added at vertices i1, i2 and i3 in turn. */
  function AddTriangle(s: seq<real>, i1: nat, i2: nat, i3: nat, n: Vec3): (s': seq<real>)
    requires i1 * 3 + 2 < |s| && i2 * 3 + 2 < |s| && i3 * 3 + 2 < |s|
    ensures |s'| == |s|
  {
    AddAt(AddAt(AddAt(s, i1, n), i2, n), i3, n)
  }

  /** What one corner index i contributes to vertex v's triple: the normal n if i is v. */
  function Share(i: nat, v: nat, n: Vec3): Vec3 {
    if i == v then n else Zero
  }

  /** What a triangle with corners i1, i2, i3 contributes to vertex v's triple. */
  function TriangleShare(i1: nat, i2: nat, i3: nat, v: nat, n: Vec3): Vec3 {
    Add(Add(Share(i1, v, n), Share(i2, v, n)), Share(i3, v, n))
  }

  /** How many of the corners i1, i2, i3 are vertex v (0 to 3). */
  function Multiplicity(i1: nat, i2: nat, i3: nat, v: nat): (m: nat)
    ensures m <= 3
    ensures m == 0 <==> v != i1 && v != i2 && v != i3
  {
    (if i1 == v then 1 else 0) + (if i2 == v then 1 else 0) + (if i3 == v then 1 else 0)
  }

  /** After the nine additions each vertex's triple has grown by the triangle's share at it;
      in particular a vertex that is not a corner keeps its triple. */
  lemma AddTriangleGet3(s: seq<real>, i1: nat, i2: nat, i3: nat, n: Vec3, v: nat)
    requires i1 * 3 + 2 < |s| && i2 * 3 + 2 < |s| && i3 * 3 + 2 < |s| && v * 3 + 2 < |s|
    ensures Get3(AddTriangle(s, i1, i2, i3, n), v) == Add(Get3(s, v), TriangleShare(i1, i2, i3, v, n))
  {
    AddAtGet3(s, i1, n, v);
    AddAtGet3(AddAt(s, i1, n), i2, n, v);
    AddAtGet3(AddAt(AddAt(s, i1, n), i2, n), i3, n, v);
  }

  /** A triangle's share at v is its normal counted once per corner that is v: a degenerate
      triangle naming v twice adds its normal twice. */
  lemma TriangleShareCounts(i1: nat, i2: nat, i3: nat, v: nat, n: Vec3)
    ensures TriangleShare(i1, i2, i3, v, n) == Scale(n, Multiplicity(i1, i2, i3, v) as real)
  {
    var k1, k2, k3 := (if i1 == v then 1.0 else 0.0), (if i2 == v then 1.0 else 0.0), (if i3 == v then 1.0 else 0.0);
    assert Multiplicity(i1, i2, i3, v) as real == k1 + k2 + k3;
    assert Share(i1, v, n) == Scale(n, k1) && Share(i2, v, n) == Scale(n, k2) && Share(i3, v, n) == Scale(n, k3);
  }

  /** The sum, over the first t triangles, of each triangle's normal counted once per corner that
      is vertex v: the reference definition of a vertex's accumulated normal. */
  function NormalSum(indices: seq<Uint32>, faces: seq<Vec3>, v: nat, t: nat): Vec3
    requires |faces| * 3 == |indices| && t <= |faces|
  {
    if t == 0 then Zero
    else
      var i := (t - 1) * 3;
      Add(NormalSum(indices, faces, v, t - 1), TriangleShare(indices[i], indices[i + 1], indices[i + 2], v, faces[t - 1]))
  }

  /** Taking one more triangle into the sum adds that triangle's share. */
  lemma NormalSumStep(indices: seq<Uint32>, faces: seq<Vec3>, v: nat, i: nat, t: nat)
    requires |faces| * 3 == |indices| && i == t * 3 && t < |faces|
    ensures NormalSum(indices, faces, v, t + 1)
            == Add(NormalSum(indices, faces, v, t), TriangleShare(indices[i], indices[i + 1], indices[i + 2], v, faces[t]))
  {
    var j := (t + 1 - 1) * 3;
    assert indices[j] == indices[i] && indices[j + 1] == indices[i + 1] && indices[j + 2] == indices[i + 2];
  }

  /** A vertex that no triangle names keeps a zero sum: with a zero-filled buffer its triple is
      still zero after the loop (and its normalisation then divides by zero). */
  lemma {:induction false} UnusedVertexSumIsZero(indices: seq<Uint32>, faces: seq<Vec3>, v: nat, t: nat)
    requires |faces| * 3 == |indices| && t <= |faces|
    requires forall k :: 0 <= k < t * 3 ==> indices[k] != v
    ensures NormalSum(indices, faces, v, t) == Zero
  {
    if t > 0 {
      UnusedVertexSumIsZero(indices, faces, v, t - 1);
      var i := (t - 1) * 3;
      assert indices[i] != v && indices[i + 1] != v && indices[i + 2] != v;
    }
  }

  /** The sum of the face normals at vertex v over the whole mesh. */
  function VertexNormalSum(vertices: seq<real>, indices: seq<Uint32>, v: nat): Vec3
    requires IsMesh(vertices, indices)
  {
    var faces := FaceNormals(vertices, indices);
    NormalSum(indices, faces, v, |faces|)
  }

  /** The three `+=` of one corner, in place: the array becomes `AddAt` of its old contents. */
  method AddAtInPlace(normals: array<real>, i: nat, n: Vec3)
    requires i * 3 + 2 < normals.Length
    modifies normals
    ensures normals[..] == AddAt(old(normals[..]), i, n)
  {
    normals[i * 3 + 0] := normals[i * 3 + 0] + n.x;
    normals[i * 3 + 1] := normals[i * 3 + 1] + n.y;
    normals[i * 3 + 2] := normals[i * 3 + 2] + n.z;
  }

  /** The nine `+=` of one iteration of plyreader.h:97-128, in place: the normal n added at the
      triples of corners i1, i2 and i3 in turn. Each vertex's triple grows by the triangle's
      share at it. */
  method AddTriangleInPlace(normals: array<real>, i1: nat, i2: nat, i3: nat, n: Vec3)
    requires i1 * 3 + 2 < normals.Length && i2 * 3 + 2 < normals.Length && i3 * 3 + 2 < normals.Length
    modifies normals
    ensures normals[..] == AddTriangle(old(normals[..]), i1, i2, i3, n)
    ensures forall v :: 0 <= v && v * 3 + 2 < normals.Length ==>
              Get3(normals[..], v) == Add(Get3(old(normals[..]), v), TriangleShare(i1, i2, i3, v, n))
  {
    AddAtInPlace(normals, i1, n);
    AddAtInPlace(normals, i2, n);
    AddAtInPlace(normals, i3, n);
    forall v | 0 <= v && v * 3 + 2 < normals.Length
      ensures Get3(normals[..], v) == Add(Get3(old(normals[..]), v), TriangleShare(i1, i2, i3, v, n))
    {
      AddTriangleGet3(old(normals[..]), i1, i2, i3, n, v);
    }
  }

  /** The body of the accumulation loop for triangle t, whose corners start at index position
      i: the corners are read, their cross product taken and added at each corner's triple. */
  method AccumulateTriangle(normals: array<real>, vertices: seq<real>, indices: seq<Uint32>, i: nat, ghost t: nat)
    requires IsMesh(vertices, indices) && normals.Length == |vertices|
    requires i == t * 3 && i + 2 < |indices|
    modifies normals
    ensures forall v :: 0 <= v && v * 3 + 2 < normals.Length ==>
              Get3(normals[..], v) == Add(Get3(old(normals[..]), v),
                                          TriangleShare(indices[i], indices[i + 1], indices[i + 2], v, FaceNormals(vertices, indices)[t]))
  {
    var i1: nat, i2: nat, i3: nat := indices[i + 0], indices[i + 1], indices[i + 2];
    var p1, p2, p3 := Get3(vertices, i1), Get3(vertices, i2), Get3(vertices, i3);
    var n := CrossProduct(p1, p2, p3);
    FaceNormalAt(vertices, indices, i, t);
    AddTriangleInPlace(normals, i1, i2, i3, n);
  }

  /** Adding triangle t's shares to buffers holding the sums over the first t triangles gives the
      sums over the first t + 1. */
  lemma AccumulateStep(start: seq<real>, before: seq<real>, after: seq<real>, indices: seq<Uint32>,
                       faces: seq<Vec3>, i: nat, t: nat)
    requires |before| == |after| && |start| == |after|
    requires |faces| * 3 == |indices| && i == t * 3 && t < |faces|
    requires forall v :: 0 <= v && v * 3 + 2 < |after| ==>
               Get3(before, v) == Add(Get3(start, v), NormalSum(indices, faces, v, t))
    requires forall v :: 0 <= v && v * 3 + 2 < |after| ==>
               Get3(after, v) == Add(Get3(before, v), TriangleShare(indices[i], indices[i + 1], indices[i + 2], v, faces[t]))
    ensures forall v :: 0 <= v && v * 3 + 2 < |after| ==>
              Get3(after, v) == Add(Get3(start, v), NormalSum(indices, faces, v, t + 1))
  {
    forall v | 0 <= v && v * 3 + 2 < |after|
      ensures Get3(after, v) == Add(Get3(start, v), NormalSum(indices, faces, v, t + 1))
    {
      NormalSumStep(indices, faces, v, i, t);
      AddAssoc(Get3(start, v), NormalSum(indices, faces, v, t),
               TriangleShare(indices[i], indices[i + 1], indices[i + 2], v, faces[t]));
    }
  }

  /** The accumulation loop of plyreader.h:97-128, adding in place to the `normals` array: every
      vertex's triple grows by the sum of the face normals of the triangles naming it. */
  method AccumulateNormals(normals: array<real>, vertices: seq<real>, indices: seq<Uint32>)
    requires IsMesh(vertices, indices) && normals.Length == |vertices|
    modifies normals
    ensures forall v :: 0 <= v && v * 3 + 2 < normals.Length ==>
              Get3(normals[..], v) == Add(Get3(old(normals[..]), v), VertexNormalSum(vertices, indices, v))
  {
    ghost var faces := FaceNormals(vertices, indices);
    ghost var t := 0;
    var i := 0;
    while i < |indices|
      invariant i == t * 3 && t <= |faces|
      invariant forall v :: 0 <= v && v * 3 + 2 < normals.Length ==>
                  Get3(normals[..], v) == Add(Get3(old(normals[..]), v), NormalSum(indices, faces, v, t))
    {
      ghost var before := normals[..];
      AccumulateTriangle(normals, vertices, indices, i, t);
      AccumulateStep(old(normals[..]), before, normals[..], indices, faces, i, t);
      i := i + 3;
      t := t + 1;
    }
    assert t == |faces|;
  }

  /** Every vertex triple of the buffer is non-zero, so that its length is positive. */
  ghost predicate NonZeroTriples(s: seq<real>) {
    forall v :: 0 <= v && v * 3 + 2 < |s| ==> Get3(s, v) != Zero
  }

  /** The normalisation loop of plyreader.h:134-144: every triple is replaced in place by the unit
      vector in its direction. */
  method NormalizeNormals(normals: array<real>, sqrt: real -> real)
    requires IsSqrt(sqrt) && normals.Length % 3 == 0 && NonZeroTriples(normals[..])
    modifies normals
    ensures forall v :: 0 <= v && v * 3 + 2 < normals.Length ==>
              Get3(normals[..], v) == Unit(Get3(old(normals[..]), v), sqrt)
  {
    ghost var t := 0;
    var i := 0;
    while i < normals.Length
      invariant i == t * 3 && i <= normals.Length
      invariant forall v :: 0 <= v < t ==> Get3(normals[..], v) == Unit(Get3(old(normals[..]), v), sqrt)
      invariant forall j :: i <= j < normals.Length ==> normals[j] == old(normals[j])
    {
      var x, y, z := normals[i + 0], normals[i + 1], normals[i + 2];
      assert Vec3(x, y, z) == Get3(old(normals[..]), t);
      var u := Unit(Vec3(x, y, z), sqrt);
      normals[i + 0] := u.x;
      normals[i + 1] := u.y;
      normals[i + 2] := u.z;
      assert Get3(normals[..], t) == u;
      i := i + 3;
      t := t + 1;
    }
  }

  /** The second half of `readObj`: a zero-filled buffer as long as the vertex buffer, the
      accumulation loop, then the normalisation loop. Each vertex's normal is the unit vector
      along the sum of the face normals of the triangles naming it. */
  method VertexNormals(vertices: seq<real>, indices: seq<Uint32>, sqrt: real -> real) returns (normals: array<real>)
    requires IsSqrt(sqrt) && IsMesh(vertices, indices)
    requires forall v :: 0 <= v && v * 3 + 2 < |vertices| ==> VertexNormalSum(vertices, indices, v) != Zero
    ensures fresh(normals) && normals.Length == |vertices|
    ensures forall v :: 0 <= v && v * 3 + 2 < |vertices| ==>
              Get3(normals[..], v) == Unit(VertexNormalSum(vertices, indices, v), sqrt)
  {
    normals := new real[|vertices|](_ => 0.0);
    ghost var zeros := normals[..];
    AccumulateNormals(normals, vertices, indices);
    forall v | 0 <= v && v * 3 + 2 < |vertices|
      ensures Get3(normals[..], v) == VertexNormalSum(vertices, indices, v)
    {
      assert Get3(zeros, v) == Zero;
    }
    NormalizeNormals(normals, sqrt);
  }

  /** `PlyReader::readObj` on the lines of a file. The vertex and index buffers are those of the
      line loop; each vertex's normal is the unit vector along the sum of the face normals of the
      triangles naming it. The code has no bounds check, so every index must address a vertex
      triple, and it divides by the sum's length, so no vertex's sum may be zero. */
  method ReadObj(lines: seq<string>, scan: Scanner, sqrt: real -> real)
    returns (vertices: seq<real>, indices: seq<Uint32>, normals: array<real>)
    requires IsSqrt(sqrt)
    requires InBounds(Run(lines, scan).indices, |Run(lines, scan).vertices|)
    requires forall v :: 0 <= v && v * 3 + 2 < |Run(lines, scan).vertices| ==>
               VertexNormalSum(Run(lines, scan).vertices, Run(lines, scan).indices, v) != Zero
    ensures vertices == Run(lines, scan).vertices && indices == Run(lines, scan).indices
    ensures fresh(normals) && normals.Length == |vertices|
    ensures forall v :: 0 <= v && v * 3 + 2 < |vertices| ==>
              Get3(normals[..], v) == Unit(VertexNormalSum(vertices, indices, v), sqrt)
  {
    vertices, indices := ReadLines(lines, scan);
    normals := VertexNormals(vertices, indices, sqrt);
  }
}
