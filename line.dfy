/** The line primitive: a unit quad drawn once per line instance, stretched by
    the instance's scale and moved by its offset (src/line.rs). */
module Line {
  import opened Coords

  /** An index into the vertex buffer (`u16`). */
  type U16 = x: int | 0 <= x < 0x1_0000

  /** One corner of the unit quad. */
  datatype Vertex = Vertex(pos: Float2)

  /** One line rectangle: where it starts and how far it extends on each axis. */
  datatype Instance = Instance(offset: Float2, scale: Float2)

  /** The four corners of the unit square. */
  const Vertices: seq<Vertex> :=
    [Vertex([0.0, 0.0]), Vertex([1.0, 0.0]), Vertex([0.0, 1.0]), Vertex([1.0, 1.0])]

  /** Two triangles, three vertex indices each. */
  const Indices: seq<U16> := [0, 1, 2, 1, 2, 3]

  /** `Instance::new`: copies the offset and scale tuples into the record's arrays. */
  function New(offset: (real, real), scale: (real, real)): (r: Instance)
    ensures ToPair(r.offset) == offset && ToPair(r.scale) == scale
  {
    Instance(FromPair(offset), FromPair(scale))
  }

  /** Two calls of `Instance::new` build the same record exactly when their
      arguments agree: no component is lost or swapped. */
  lemma NewInjective(o1: (real, real), s1: (real, real), o2: (real, real), s2: (real, real))
    ensures New(o1, s1) == New(o2, s2) <==> o1 == o2 && s1 == s2
  {
    if New(o1, s1) == New(o2, s2) {
      assert ToPair(New(o1, s1).offset) == ToPair(New(o2, s2).offset);
      assert ToPair(New(o1, s1).scale) == ToPair(New(o2, s2).scale);
    }
  }

  /** Every instance is some `Instance::new` result. */
  lemma NewSurjective(r: Instance)
    ensures New(ToPair(r.offset), ToPair(r.scale)) == r
  {
    PairRoundTrip(r.offset);
    PairRoundTrip(r.scale);
  }

  /** The vertex at `k`, as a point. */
  function Corner(k: nat): (p: (real, real))
    requires k < |Vertices|
    ensures 0.0 <= p.0 <= 1.0 && 0.0 <= p.1 <= 1.0
  {
    ToPair(Vertices[k].pos)
  }

  /** The vertices are the unit square's corners, in the order
      (0,0), (1,0), (0,1), (1,1): bit 0 of the index is x, bit 1 is y. */
  lemma VerticesAreUnitSquare()
    ensures |Vertices| == 4
    ensures forall k :: 0 <= k < 4 ==> Corner(k) == ((k % 2) as real, (k / 2) as real)
  {
  }

  /** The vertex indices of triangle `t` (0 or 1). */
  function Triangle(t: nat): (vs: set<int>)
    requires t < |Indices| / 3
    ensures |vs| == 3
    ensures forall v :: v in vs ==> 0 <= v < |Vertices|
  {
    if t == 0 then
      assert {Indices[0], Indices[1], Indices[2]} == {0, 1, 2};
      {Indices[0], Indices[1], Indices[2]}
    else
      assert {Indices[3], Indices[4], Indices[5]} == {1, 2, 3};
      {Indices[3], Indices[4], Indices[5]}
  }

  /** Six indices, all inside the vertex buffer. */
  lemma IndicesValid()
    ensures |Indices| == 6 && |Indices| / 3 == 2
    ensures forall k :: 0 <= k < |Indices| ==> Indices[k] < |Vertices|
  {
  }

  /** Each triangle has three distinct corners; the two share exactly the
      diagonal 1-2 and between them use all four corners. */
  lemma TrianglesSplitQuad()
    ensures |Indices| / 3 == 2
    ensures |Triangle(0)| == 3 && |Triangle(1)| == 3
    ensures Triangle(0) * Triangle(1) == {1, 2}
    ensures Triangle(0) + Triangle(1) == {0, 1, 2, 3}
  {
    assert Triangle(0) == {0, 1, 2};
    assert Triangle(1) == {1, 2, 3};
  }

  /** Twice the signed area of the triangle whose corners are vertices a, b, c. */
  function DoubleArea(a: nat, b: nat, c: nat): real
    requires a < |Vertices| && b < |Vertices| && c < |Vertices|
  {
    var (pa, pb, pc) := (Corner(a), Corner(b), Corner(c));
    (pb.0 - pa.0) * (pc.1 - pa.1) - (pc.0 - pa.0) * (pb.1 - pa.1)
  }

  /** Neither triangle is degenerate: each has area 1/2, half the unit square,
      and the two have opposite winding, which is harmless because the
      pipeline does not cull faces. */
  lemma TriangleAreas()
    ensures DoubleArea(Indices[0], Indices[1], Indices[2]) == 1.0
    ensures DoubleArea(Indices[3], Indices[4], Indices[5]) == -1.0
  {
  }
}
