/**
 * ProcessFacets of src/load-utils/load_utils.cpp: the per-face table of
 * normals and tangents, and for every vertex the list of faces around it.
 */
module Facets {
  import opened Wrappers
  import opened Vectors
  import opened FaceGeometry

  /** One row of the face matrix: three vertex indices, in winding order. */
  datatype Face = Face(a: nat, b: nat, c: nat) {

    /** Column k of the row: a, b, c for k = 0, 1, 2. */
    function Corner(k: nat): nat
      requires k < 3
    {
      if k == 0 then a else if k == 1 then b else c
    }

    /** Whether vertex v is one of the face's corners. */
    predicate Has(v: nat) {
      a == v || b == v || c == v
    }

    /** How many of the face's corners are vertex v (more than one on a degenerate face). */
    function Count(v: nat): nat {
      (if a == v then 1 else 0) + (if b == v then 1 else 0) + (if c == v then 1 else 0)
    }
  }

  /** FacetInfo: a face's normal and its tangent (`None` where not finite). */
  datatype FacetInfo = FacetInfo(faceNormal: Vec3, tangent: Option<Vec3>)

  /** The parsed mesh: vertex rows, face rows and the optional UV rows. */
  datatype Mesh = Mesh(vertices: seq<Vec3>, facets: seq<Face>, uvs: Option<seq<Vec2>>) {

    /** Vertex v has a position row and, when UVs are present, a UV row. */
    predicate HasVertex(v: nat) {
      v < |vertices| && (uvs.Some? ==> v < |uvs.value|)
    }

    /** Every index of every face names an existing row. */
    predicate Valid() {
      forall i :: 0 <= i < |facets| ==> HasVertex(facets[i].a) && HasVertex(facets[i].b) && HasVertex(facets[i].c)
    }
  }

  /** The UV row of vertex v, or (0, 0) when the mesh carries no UVs. */
  function UvRow(uvs: Option<seq<Vec2>>, v: nat): Vec2
    requires uvs.Some? ==> v < |uvs.value|
  {
    if uvs.Some? then uvs.value[v] else Zero2
  }

  /** The table entry of one face. */
  function FacetAttributes(m: Mesh, f: Face, norm: Vec3 -> Vec3): FacetInfo
    requires m.HasVertex(f.a) && m.HasVertex(f.b) && m.HasVertex(f.c)
  {
    var a, b, c := m.vertices[f.a], m.vertices[f.b], m.vertices[f.c];
    FacetInfo(ComputeTriangleNormal(a, b, c, norm),
              ComputeTangent(a, b, c, UvRow(m.uvs, f.a), UvRow(m.uvs, f.b), UvRow(m.uvs, f.c)))
  }

  /** The face table: entry i belongs to face i. */
  function FaceTable(m: Mesh, norm: Vec3 -> Vec3): (t: seq<FacetInfo>)
    requires m.Valid()
    ensures |t| == |m.facets|
  {
    seq(|m.facets|, i requires 0 <= i < |m.facets| => FacetAttributes(m, m.facets[i], norm))
  }

  /**
   * The faces around vertex v: face ordinals in traversal order, each one
   * once per corner of that face that is v.
   */
  function Incident(facets: seq<Face>, v: nat): seq<nat>
    decreases |facets|
  {
    if facets == [] then []
    else
      var n := |facets| - 1;
      Incident(facets[..n], v) + Ordinals(facets[n], n, v)
  }

  /** Face n's contribution to vertex v's list: n, once per corner of the face that is v, in corner order. */
  function Ordinals(f: Face, n: nat, v: nat): seq<nat> {
    (if f.a == v then [n] else []) + (if f.b == v then [n] else []) + (if f.c == v then [n] else [])
  }

  /**
   * ProcessFacets: one pass over the faces that stores each face's normal
   * and tangent at its ordinal and appends the ordinal to the lists of its
   * three vertices.
   */
  method ProcessFacets(m: Mesh, norm: Vec3 -> Vec3) returns (table: seq<FacetInfo>, neighbours: seq<seq<nat>>)
    requires m.Valid()
    ensures table == FaceTable(m, norm)
    ensures |neighbours| == |m.vertices|
    ensures forall v :: 0 <= v < |neighbours| ==> neighbours[v] == Incident(m.facets, v)
  {
    ghost var spec := FaceTable(m, norm);
    var info := new FacetInfo[|m.facets|];
    var nb: array<seq<nat>> := new seq<nat>[|m.vertices|](_ => []);
    var i := 0;
    while i < |m.facets|
      invariant 0 <= i <= |m.facets|
      invariant info[..i] == spec[..i]
      invariant forall v :: 0 <= v < nb.Length ==> nb[v] == Incident(m.facets[..i], v)
    {
      info[i] := ProcessFace(m, m.facets[i], norm);
      assert info[..i + 1] == info[..i] + [spec[i]];

      AppendToCorners(nb, m.facets[i], i);
      forall v | 0 <= v < nb.Length
        ensures nb[v] == Incident(m.facets[..i + 1], v)
      {
        IncidentStep(m.facets, i, v);
      }
      i := i + 1;
    }
    assert m.facets[..i] == m.facets;
    assert info[..] == info[..i];
    table := info[..];
    neighbours := nb[..];
  }

  /** Taking one more face appends its ordinal once per matching corner. */
  lemma IncidentStep(facets: seq<Face>, i: nat, v: nat)
    requires i < |facets|
    ensures Incident(facets[..i + 1], v) == Incident(facets[..i], v) + Ordinals(facets[i], i, v)
  {
    assert facets[..i + 1][..i] == facets[..i];
  }

  /** The three push_backs: face i joins the lists of its corners a, b and c, in that order. */
  method AppendToCorners(nb: array<seq<nat>>, face: Face, i: nat)
    requires face.a < nb.Length && face.b < nb.Length && face.c < nb.Length
    modifies nb
    ensures forall v :: 0 <= v < nb.Length ==>
      nb[v] == old(nb[v]) + Ordinals(face, i, v)
  {
    nb[face.a] := nb[face.a] + [i];
    nb[face.b] := nb[face.b] + [i];
    nb[face.c] := nb[face.c] + [i];
  }

  /** The body of the face loop: one face's normal and tangent. */
  method ProcessFace(m: Mesh, face: Face, norm: Vec3 -> Vec3) returns (info: FacetInfo)
    requires m.HasVertex(face.a) && m.HasVertex(face.b) && m.HasVertex(face.c)
    ensures info == FacetAttributes(m, face, norm)
  {
    var posA, posB, posC := face.a, face.b, face.c;
    var a, b, c := m.vertices[posA], m.vertices[posB], m.vertices[posC];
    // if not provided, the tangent is undefined and assumed not to be used
    var uv1, uv2, uv3 := Zero2, Zero2, Zero2;
    if m.uvs.Some? {
      uv1, uv2, uv3 := m.uvs.value[posA], m.uvs.value[posB], m.uvs.value[posC];
    }
    var faceNormal := ComputeTriangleNormal(a, b, c, norm);
    var tangent := ComputeTangent(a, b, c, uv1, uv2, uv3);
    info := FacetInfo(faceNormal, tangent);
  }

  /** The ordinals one face contributes to vertex v's list: n, once per corner at v. */
  lemma CornerOrdinals(f: Face, n: nat, v: nat, x: nat)
    ensures multiset(Ordinals(f, n, v))[x] == if x == n then f.Count(v) else 0
  {
  }

  /** The last face adds to vertex v's list as many copies of its ordinal as it has corners at v. */
  lemma IncidentLastFace(facets: seq<Face>, v: nat, x: nat)
    requires facets != []
    ensures multiset(Incident(facets, v))[x]
         == multiset(Incident(facets[..|facets| - 1], v))[x] + (if x == |facets| - 1 then facets[x].Count(v) else 0)
  {
    var n := |facets| - 1;
    var f := facets[n];
    CornerOrdinals(f, n, v, x);
  }

  /** Face x is listed at vertex v exactly as often as v is a corner of face x. */
  lemma {:induction false} IncidentMultiplicity(facets: seq<Face>, v: nat, x: nat)
    ensures multiset(Incident(facets, v))[x] == if x < |facets| then facets[x].Count(v) else 0
    decreases |facets|
  {
    if facets != [] {
      var n := |facets| - 1;
      IncidentMultiplicity(facets[..n], v, x);
      IncidentLastFace(facets, v, x);
      if x < n {
        assert facets[..n][x] == facets[x];
      }
    }
  }

  /** A face is in a vertex's list if and only if the vertex is one of its corners. */
  lemma IncidentMembership(facets: seq<Face>, v: nat, x: nat)
    ensures x in Incident(facets, v) <==> x < |facets| && facets[x].Has(v)
  {
    IncidentMultiplicity(facets, v, x);
  }

  /** The list holds valid face ordinals in non-decreasing order. */
  lemma {:induction false} IncidentSorted(facets: seq<Face>, v: nat)
    ensures forall p :: 0 <= p < |Incident(facets, v)| ==> Incident(facets, v)[p] < |facets|
    ensures forall p, q :: 0 <= p <= q < |Incident(facets, v)| ==> Incident(facets, v)[p] <= Incident(facets, v)[q]
    decreases |facets|
  {
    if facets != [] {
      IncidentSorted(facets[..|facets| - 1], v);
    }
  }

  /** Every entry of a list is a face ordinal. */
  lemma IncidentBounded(facets: seq<Face>, v: nat)
    ensures forall p :: 0 <= p < |Incident(facets, v)| ==> Incident(facets, v)[p] < |facets|
  {
    IncidentSorted(facets, v);
  }

  /** A vertex that no face references keeps an empty list. */
  lemma UnreferencedVertexEmpty(facets: seq<Face>, v: nat)
    requires forall i :: 0 <= i < |facets| ==> !facets[i].Has(v)
    ensures Incident(facets, v) == []
  {
    if Incident(facets, v) != [] {
      IncidentMembership(facets, v, Incident(facets, v)[0]);
    }
  }

  /** Every corner's vertex lists the corner's own face, so its list is not empty. */
  lemma OwnFaceIncident(facets: seq<Face>, i: nat, k: nat)
    requires i < |facets| && k < 3
    ensures i in Incident(facets, facets[i].Corner(k))
    ensures |Incident(facets, facets[i].Corner(k))| > 0
  {
    IncidentMembership(facets, facets[i].Corner(k), i);
  }

  /** The total length of the lists of vertices 0 .. n-1. */
  function TotalIncidence(facets: seq<Face>, n: nat): nat {
    if n == 0 then 0 else TotalIncidence(facets, n - 1) + |Incident(facets, n - 1)|
  }

  /** How many corners of face f are among the vertices 0 .. n-1. */
  function CornerTally(f: Face, n: nat): nat {
    if n == 0 then 0 else CornerTally(f, n - 1) + f.Count(n - 1)
  }

  /** Every corner below n is counted once. */
  lemma {:induction false} CornerTallyBelow(f: Face, n: nat)
    ensures CornerTally(f, n) == (if f.a < n then 1 else 0) + (if f.b < n then 1 else 0) + (if f.c < n then 1 else 0)
  {
    if n > 0 {
      CornerTallyBelow(f, n - 1);
    }
  }

  /** Adding the last face adds its corners below n to the total. */
  lemma {:induction false} TotalIncidenceStep(facets: seq<Face>, n: nat)
    requires facets != []
    ensures TotalIncidence(facets, n)
         == TotalIncidence(facets[..|facets| - 1], n) + CornerTally(facets[|facets| - 1], n)
  {
    if n > 0 {
      TotalIncidenceStep(facets, n - 1);
    }
  }

  /** When every index is below n, the lists of vertices 0 .. n-1 hold 3 entries per face. */
  lemma {:induction false} TotalIncidenceIsThreePerFace(facets: seq<Face>, n: nat)
    requires forall i :: 0 <= i < |facets| ==> facets[i].a < n && facets[i].b < n && facets[i].c < n
    ensures TotalIncidence(facets, n) == 3 * |facets|
    decreases |facets|
  {
    if facets == [] {
      ZeroTotal(n);
    } else {
      var k := |facets| - 1;
      TotalIncidenceStep(facets, n);
      CornerTallyBelow(facets[k], n);
      TotalIncidenceIsThreePerFace(facets[..k], n);
    }
  }

  /** With no faces every list is empty. */
  lemma {:induction false} ZeroTotal(n: nat)
    ensures TotalIncidence([], n) == 0
  {
    if n > 0 {
      ZeroTotal(n - 1);
    }
  }
}
