/**
 * CreateTriangles of src/load-utils/load_utils.cpp: three corner records
 * per face, whose normal and tangent are averaged over the faces around the
 * corner's vertex (or, for the normal in flat and wireframe mode, are the
 * face's own).
 */
module Triangles {
  import opened Wrappers
  import opened Vectors
  import opened Attributes
  import opened FaceGeometry
  import opened Facets

  /** Every listed face has an entry in the table. */
  predicate InTable(table: seq<FacetInfo>, faces: seq<nat>) {
    forall p :: 0 <= p < |faces| ==> faces[p] < |table|
  }

  /** The sum of the listed faces' normals, accumulated in list order. */
  function SumNormals(table: seq<FacetInfo>, faces: seq<nat>): Vec3
    requires InTable(table, faces)
  {
    if faces == [] then Zero3
    else Add(SumNormals(table, faces[..|faces| - 1]), table[faces[|faces| - 1]].faceNormal)
  }

  /** `+=` on a tangent: a non-finite operand makes the sum non-finite. */
  function AddTangent(acc: Option<Vec3>, t: Option<Vec3>): Option<Vec3> {
    if acc.Some? && t.Some? then Some(Add(acc.value, t.value)) else None
  }

  /** The sum of the listed faces' tangents, accumulated in list order. */
  function SumTangents(table: seq<FacetInfo>, faces: seq<nat>): Option<Vec3>
    requires InTable(table, faces)
  {
    if faces == [] then Some(Zero3)
    else AddTangent(SumTangents(table, faces[..|faces| - 1]), table[faces[|faces| - 1]].tangent)
  }

  /** Eigen's vector / scalar. */
  function Div(p: Vec3, k: real): Vec3
    requires k != 0.0
  {
    Vec3(p.x / k, p.y / k, p.z / k)
  }

  /** The normalised mean of the listed faces' normals. */
  function AverageNormal(table: seq<FacetInfo>, faces: seq<nat>, norm: Vec3 -> Vec3): Vec3
    requires InTable(table, faces) && |faces| > 0
  {
    norm(Div(SumNormals(table, faces), |faces| as real))
  }

  /** The normalised mean of the listed faces' tangents; non-finite stays non-finite. */
  function AverageTangent(table: seq<FacetInfo>, faces: seq<nat>, norm: Vec3 -> Vec3): Option<Vec3>
    requires InTable(table, faces) && |faces| > 0
  {
    var s := SumTangents(table, faces);
    if s.Some? then Some(norm(Div(s.value, |faces| as real))) else None
  }

  /**
   * Corner k of face i in the output: the position and UV row of its
   * vertex, the normal the shading option selects and the averaged tangent.
   */
  function FaceCorner(m: Mesh, opt: ShadingOption, norm: Vec3 -> Vec3, i: nat, k: nat): Vertex
    requires m.Valid() && i < |m.facets| && k < 3
  {
    var v := m.facets[i].Corner(k);
    var table := FaceTable(m, norm);
    var around := Incident(m.facets, v);
    OwnFaceIncident(m.facets, i, k);
    IncidentBounded(m.facets, v);
    Vertex(m.vertices[v],
           if UsesFaceNormal(opt) then table[i].faceNormal else AverageNormal(table, around, norm),
           AverageTangent(table, around, norm),
           UvRow(m.uvs, v))
  }

  /** Output record j: corner j % 3 of face j / 3. */
  function Corner(m: Mesh, opt: ShadingOption, norm: Vec3 -> Vec3, j: nat): Vertex
    requires m.Valid() && j < 3 * |m.facets|
  {
    FaceCorner(m, opt, norm, j / 3, j % 3)
  }

  /** Corner k of face i is output record 3 * i + k, and its neighbourhood is a non-empty list of table entries. */
  lemma CornerOfFace(m: Mesh, opt: ShadingOption, norm: Vec3 -> Vec3, i: nat, k: nat)
    requires m.Valid() && i < |m.facets| && k < 3
    ensures |Incident(m.facets, m.facets[i].Corner(k))| > 0
    ensures InTable(FaceTable(m, norm), Incident(m.facets, m.facets[i].Corner(k)))
    ensures Corner(m, opt, norm, 3 * i + k) == FaceCorner(m, opt, norm, i, k)
  {
    OwnFaceIncident(m.facets, i, k);
    IncidentBounded(m.facets, m.facets[i].Corner(k));
    assert (3 * i + k) / 3 == i && (3 * i + k) % 3 == k;
  }

  /** Appending face i's three corners keeps the output equal to Corner, record by record. */
  lemma ExtendCorners(m: Mesh, opt: ShadingOption, norm: Vec3 -> Vec3, prev: seq<Vertex>, i: nat, vA: Vertex, vB: Vertex, vC: Vertex)
    requires m.Valid() && i < |m.facets| && |prev| == 3 * i
    requires forall j :: 0 <= j < |prev| ==> prev[j] == Corner(m, opt, norm, j)
    requires vA == FaceCorner(m, opt, norm, i, 0)
    requires vB == FaceCorner(m, opt, norm, i, 1)
    requires vC == FaceCorner(m, opt, norm, i, 2)
    ensures forall j :: 0 <= j < |prev| + 3 ==> (prev + [vA, vB, vC])[j] == Corner(m, opt, norm, j)
  {
    var next := prev + [vA, vB, vC];
    forall j | 0 <= j < |next|
      ensures next[j] == Corner(m, opt, norm, j)
    {
      if j < |prev| {
        assert next[j] == prev[j];
      } else if j == 3 * i {
        CornerOfFace(m, opt, norm, i, 0);
        assert next[j] == vA;
      } else if j == 3 * i + 1 {
        CornerOfFace(m, opt, norm, i, 1);
        assert next[j] == vB;
      } else {
        CornerOfFace(m, opt, norm, i, 2);
        assert j == 3 * i + 2 && next[j] == vC;
      }
    }
  }

  /** One of the inner loops: the running sums of normals and tangents over a vertex's faces. */
  method SumNeighbours(table: seq<FacetInfo>, faces: seq<nat>) returns (normalSum: Vec3, tangentSum: Option<Vec3>)
    requires InTable(table, faces)
    ensures normalSum == SumNormals(table, faces)
    ensures tangentSum == SumTangents(table, faces)
  {
    normalSum, tangentSum := Zero3, Some(Zero3);
    var p := 0;
    while p < |faces|
      invariant 0 <= p <= |faces|
      invariant normalSum == SumNormals(table, faces[..p])
      invariant tangentSum == SumTangents(table, faces[..p])
    {
      var face := faces[p];
      assert faces[..p + 1][..p] == faces[..p];
      normalSum := Add(normalSum, table[face].faceNormal);
      tangentSum := AddTangent(tangentSum, table[face].tangent);
      p := p + 1;
    }
    assert faces[..p] == faces;
  }

  /** The averaged normal and tangent of one vertex, from its list of faces. */
  method AverageAround(table: seq<FacetInfo>, faces: seq<nat>, norm: Vec3 -> Vec3) returns (pv: Vec3, tangent: Option<Vec3>)
    requires InTable(table, faces) && |faces| > 0
    ensures pv == AverageNormal(table, faces, norm)
    ensures tangent == AverageTangent(table, faces, norm)
  {
    var normalSum, tangentSum := SumNeighbours(table, faces);
    pv := norm(Div(normalSum, |faces| as real));
    tangent := if tangentSum.Some? then Some(norm(Div(tangentSum.value, |faces| as real))) else None;
  }

  /**
   * CreateTriangles: for each face in order, its corners a, b, c as three
   * vertex records, each built from the face table and the neighbour lists
   * ProcessFacets returns.
   */
  method CreateTriangles(m: Mesh, opt: ShadingOption, norm: Vec3 -> Vec3) returns (tris: seq<Vertex>)
    requires m.Valid()
    ensures |tris| == 3 * |m.facets|
    ensures forall j :: 0 <= j < |tris| ==> tris[j] == Corner(m, opt, norm, j)
  {
    var table, neighbours := ProcessFacets(m, norm);
    // declared outside the loop: without UVs they stay zero for every face
    var uv1, uv2, uv3 := Zero2, Zero2, Zero2;
    tris := [];
    var i := 0;
    while i < |m.facets|
      invariant 0 <= i <= |m.facets|
      invariant |tris| == 3 * i
      invariant forall j :: 0 <= j < |tris| ==> tris[j] == Corner(m, opt, norm, j)
      invariant m.uvs.None? ==> uv1 == Zero2 && uv2 == Zero2 && uv3 == Zero2
    {
      var vA, vB, vC;
      vA, vB, vC, uv1, uv2, uv3 := EmitFace(m, opt, norm, table, neighbours, i, uv1, uv2, uv3);
      ExtendCorners(m, opt, norm, tris, i, vA, vB, vC);
      tris := tris + [vA, vB, vC];
      i := i + 1;
    }
  }

  /**
   * The body of the face loop: the three records of face i. The UV
   * variables live across iterations; they are overwritten only when the
   * mesh has UV data.
   */
  method EmitFace(m: Mesh, opt: ShadingOption, norm: Vec3 -> Vec3, table: seq<FacetInfo>, neighbours: seq<seq<nat>>,
                  i: nat, uv1: Vec2, uv2: Vec2, uv3: Vec2)
    returns (vA: Vertex, vB: Vertex, vC: Vertex, uv1': Vec2, uv2': Vec2, uv3': Vec2)
    requires m.Valid() && i < |m.facets|
    requires table == FaceTable(m, norm)
    requires |neighbours| == |m.vertices|
    requires forall v :: 0 <= v < |neighbours| ==> neighbours[v] == Incident(m.facets, v)
    requires m.uvs.None? ==> uv1 == Zero2 && uv2 == Zero2 && uv3 == Zero2
    ensures vA == FaceCorner(m, opt, norm, i, 0)
    ensures vB == FaceCorner(m, opt, norm, i, 1)
    ensures vC == FaceCorner(m, opt, norm, i, 2)
    ensures m.uvs.None? ==> uv1' == Zero2 && uv2' == Zero2 && uv3' == Zero2
  {
    var posA, posB, posC := m.facets[i].a, m.facets[i].b, m.facets[i].c;
    var a, b, c := m.vertices[posA], m.vertices[posB], m.vertices[posC];

    CornerOfFace(m, opt, norm, i, 0);
    CornerOfFace(m, opt, norm, i, 1);
    CornerOfFace(m, opt, norm, i, 2);
    var pvA, tangentA := AverageAround(table, neighbours[posA], norm);
    var pvB, tangentB := AverageAround(table, neighbours[posB], norm);
    var pvC, tangentC := AverageAround(table, neighbours[posC], norm);

    // the normal depends on the selected rendering mode
    var useFaceNormal := UsesFaceNormal(opt);
    var normalA := if useFaceNormal then table[i].faceNormal else pvA;
    var normalB := if useFaceNormal then table[i].faceNormal else pvB;
    var normalC := if useFaceNormal then table[i].faceNormal else pvC;

    uv1', uv2', uv3' := uv1, uv2, uv3;
    if m.uvs.Some? {
      uv1', uv2', uv3' := m.uvs.value[posA], m.uvs.value[posB], m.uvs.value[posC];
    }

    vA := Vertex(a, normalA, tangentA, uv1');
    vB := Vertex(b, normalB, tangentB, uv2');
    vC := Vertex(c, normalC, tangentC, uv3');
  }

  /** Summing k copies of one normal gives that normal scaled by k. */
  lemma {:induction false} SumNormalsUniform(table: seq<FacetInfo>, faces: seq<nat>, n: Vec3)
    requires InTable(table, faces)
    requires forall p :: 0 <= p < |faces| ==> table[faces[p]].faceNormal == n
    ensures SumNormals(table, faces) == Scale(|faces| as real, n)
  {
    if faces != [] {
      var init := faces[..|faces| - 1];
      assert forall p :: 0 <= p < |init| ==> init[p] == faces[p];
      SumNormalsUniform(table, init, n);
    }
  }

  /** Dividing a vector scaled by k by k gives the vector back. */
  lemma DivScale(n: Vec3, k: real)
    requires k != 0.0
    ensures Div(Scale(k, n), k) == n
  {
    assert (k * n.x) / k == n.x;
    assert (k * n.y) / k == n.y;
    assert (k * n.z) / k == n.z;
  }

  /**
   * Faces that share one normal (a flat patch of the surface) average to
   * that normal, normalised.
   */
  lemma CoplanarSmoothNormal(table: seq<FacetInfo>, faces: seq<nat>, n: Vec3, norm: Vec3 -> Vec3)
    requires InTable(table, faces) && |faces| > 0
    requires forall p :: 0 <= p < |faces| ==> table[faces[p]].faceNormal == n
    ensures AverageNormal(table, faces, norm) == norm(n)
  {
    SumNormalsUniform(table, faces, n);
    DivScale(n, |faces| as real);
  }

  /** The summed tangent is finite exactly when every listed face's tangent is. */
  lemma {:induction false} SumTangentsFinite(table: seq<FacetInfo>, faces: seq<nat>)
    requires InTable(table, faces)
    ensures SumTangents(table, faces).Some? <==> forall p :: 0 <= p < |faces| ==> table[faces[p]].tangent.Some?
  {
    if faces != [] {
      var init := faces[..|faces| - 1];
      assert forall p :: 0 <= p < |init| ==> init[p] == faces[p];
      SumTangentsFinite(table, init);
    }
  }

  /** Corner j's position is that of vertex j % 3 of face j / 3. */
  lemma CornerPosition(m: Mesh, opt: ShadingOption, norm: Vec3 -> Vec3, i: nat, k: nat)
    requires m.Valid() && i < |m.facets| && k < 3
    ensures Corner(m, opt, norm, 3 * i + k).pos == m.vertices[m.facets[i].Corner(k)]
  {
    CornerOfFace(m, opt, norm, i, k);
  }

  /** In flat and wireframe mode all three corners of a face carry the face's own normal. */
  lemma FacetedCornerNormal(m: Mesh, opt: ShadingOption, norm: Vec3 -> Vec3, i: nat, k: nat)
    requires m.Valid() && i < |m.facets| && k < 3 && UsesFaceNormal(opt)
    ensures var f := m.facets[i];
            Corner(m, opt, norm, 3 * i + k).normal
              == ComputeTriangleNormal(m.vertices[f.a], m.vertices[f.b], m.vertices[f.c], norm)
  {
    CornerOfFace(m, opt, norm, i, k);
  }

  /**
   * In per-vertex and normal-mapping mode, every record made for one vertex
   * is the same record, whichever face it comes from.
   */
  lemma SmoothCornersAgree(m: Mesh, opt: ShadingOption, norm: Vec3 -> Vec3, i1: nat, k1: nat, i2: nat, k2: nat)
    requires m.Valid() && i1 < |m.facets| && k1 < 3 && i2 < |m.facets| && k2 < 3
    requires !UsesFaceNormal(opt) && m.facets[i1].Corner(k1) == m.facets[i2].Corner(k2)
    ensures Corner(m, opt, norm, 3 * i1 + k1) == Corner(m, opt, norm, 3 * i2 + k2)
  {
    CornerOfFace(m, opt, norm, i1, k1);
    CornerOfFace(m, opt, norm, i2, k2);
  }

  /** The shading option chooses the normal and nothing else. */
  lemma ShadingOnlySelectsNormal(m: Mesh, o1: ShadingOption, o2: ShadingOption, norm: Vec3 -> Vec3, j: nat)
    requires m.Valid() && j < 3 * |m.facets|
    ensures Corner(m, o1, norm, j).pos == Corner(m, o2, norm, j).pos
    ensures Corner(m, o1, norm, j).tangent == Corner(m, o2, norm, j).tangent
    ensures Corner(m, o1, norm, j).uvCoord == Corner(m, o2, norm, j).uvCoord
    ensures UsesFaceNormal(o1) == UsesFaceNormal(o2) ==> Corner(m, o1, norm, j) == Corner(m, o2, norm, j)
  {
  }

  /**
   * A vertex whose faces all lie in one plane with normal n gets norm(n) in
   * per-vertex and normal-mapping mode.
   */
  lemma FlatNeighbourhoodNormal(m: Mesh, opt: ShadingOption, norm: Vec3 -> Vec3, i: nat, k: nat, n: Vec3)
    requires m.Valid() && i < |m.facets| && k < 3 && !UsesFaceNormal(opt)
    requires forall q :: 0 <= q < |m.facets| && m.facets[q].Has(m.facets[i].Corner(k)) ==> FaceTable(m, norm)[q].faceNormal == n
    ensures Corner(m, opt, norm, 3 * i + k).normal == norm(n)
  {
    CornerOfFace(m, opt, norm, i, k);
    var v := m.facets[i].Corner(k);
    var around := Incident(m.facets, v);
    forall p | 0 <= p < |around|
      ensures FaceTable(m, norm)[around[p]].faceNormal == n
    {
      IncidentMembership(m.facets, v, around[p]);
    }
    CoplanarSmoothNormal(FaceTable(m, norm), around, n, norm);
  }

  /**
   * When normalising twice changes nothing, as for `normalized()` on a
   * non-zero vector, a vertex whose faces all share face i's normal gets
   * exactly that normal, in every shading mode.
   */
  lemma PlanarCornerKeepsFaceNormal(m: Mesh, opt: ShadingOption, norm: Vec3 -> Vec3, i: nat, k: nat)
    requires m.Valid() && i < |m.facets| && k < 3
    requires forall p :: norm(norm(p)) == norm(p)
    requires forall q :: 0 <= q < |m.facets| && m.facets[q].Has(m.facets[i].Corner(k))
               ==> FaceTable(m, norm)[q].faceNormal == FaceTable(m, norm)[i].faceNormal
    ensures Corner(m, opt, norm, 3 * i + k).normal == FaceTable(m, norm)[i].faceNormal
  {
    var n := FaceTable(m, norm)[i].faceNormal;
    if UsesFaceNormal(opt) {
      FacetedCornerNormal(m, opt, norm, i, k);
    } else {
      FlatNeighbourhoodNormal(m, opt, norm, i, k, n);
      var f := m.facets[i];
      assert n == norm(FaceCross(m.vertices[f.a], m.vertices[f.b], m.vertices[f.c]));
    }
  }

  /**
   * Without UV data every corner gets UV (0, 0) and, as every face's
   * tangent is then non-finite, a non-finite tangent.
   */
  lemma NoUvCorner(m: Mesh, opt: ShadingOption, norm: Vec3 -> Vec3, i: nat, k: nat)
    requires m.Valid() && i < |m.facets| && k < 3 && m.uvs.None?
    ensures Corner(m, opt, norm, 3 * i + k).uvCoord == Zero2
    ensures Corner(m, opt, norm, 3 * i + k).tangent == None
  {
    CornerOfFace(m, opt, norm, i, k);
    var table := FaceTable(m, norm);
    var around := Incident(m.facets, m.facets[i].Corner(k));
    var f := m.facets[around[0]];
    ZeroUvTangentUndefined(m.vertices[f.a], m.vertices[f.b], m.vertices[f.c]);
    assert table[around[0]].tangent == None;
    SumTangentsFinite(table, around);
  }
}
