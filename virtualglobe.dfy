/** Construction of a map region on the virtual globe: a latitude/longitude
    rectangle is sampled as a 3x3 grid, each sample is placed on a sphere
    slightly above the globe, and eight triangles tile the four grid cells. */
module VirtualGlobe {
  import opened Vectors

  // ---------------------------------------------------------------------
  // Angles
  // ---------------------------------------------------------------------

  /** The value of `Math.PI`, written as a decimal. */
  const PI: real := 3.141592653589793

  /** Degrees to radians. */
  function ToRadians(angle: real): (r: real)
    ensures angle == 180.0 ==> r == PI
    ensures angle == 0.0 ==> r == 0.0
    ensures (r < 0.0) <==> (angle < 0.0)
  {
    angle * (PI / 180.0)
  }

  /** The conversion is linear: it respects sums and scalar multiples. */
  lemma ToRadiansLinear(a: real, b: real, c: real)
    ensures ToRadians(a + b) == ToRadians(a) + ToRadians(b)
    ensures ToRadians(c * a) == c * ToRadians(a)
  {
  }

  /** The polar (zenith) angle of a latitude: 0 at the north pole, PI at
      the south pole. */
  function PolarAngle(lat: real): (r: real)
    ensures lat == 90.0 ==> r == 0.0
    ensures lat == -90.0 ==> r == PI
    ensures -90.0 <= lat <= 90.0 ==> 0.0 <= r <= PI
  {
    ToRadians(90.0 - lat)
  }

  /** The azimuth of a longitude, turned a quarter turn so that the central
      meridian meets the z axis. */
  function Azimuth(lon: real): (r: real)
    ensures r == ToRadians(lon) + PI / 2.0
  {
    ToRadians(lon + 90.0)
  }

  /** Geographic coordinates (in degrees) to a point on the sphere of the
      given radius. Sine and cosine are parameters: the model does not
      interpret them. The point lies in the vertical plane of its meridian,
      the plane through the y axis at the longitude's azimuth. */
  function ConvertLatLongToWebGLXYZ(radius: real, lat: real, lon: real,
                                    sin: real -> real, cos: real -> real): (p: Vec3)
    ensures p.x * sin(Azimuth(lon)) + p.z * cos(Azimuth(lon)) == 0.0
  {
    var polar := PolarAngle(lat);
    var azimuth := Azimuth(lon);
    Vec3(-radius * cos(azimuth) * sin(polar),
         radius * cos(polar),
         radius * sin(azimuth) * sin(polar))
  }

  /** sin^2 + cos^2 = 1 at angle a. */
  predicate PythagoreanAt(sin: real -> real, cos: real -> real, a: real)
  {
    sin(a) * sin(a) + cos(a) * cos(a) == 1.0
  }

  /** The height of a converted point depends on the latitude alone. */
  lemma HeightDependsOnlyOnLatitude(radius: real, lat: real, lon1: real, lon2: real,
                                    sin: real -> real, cos: real -> real)
    ensures ConvertLatLongToWebGLXYZ(radius, lat, lon1, sin, cos).y
         == ConvertLatLongToWebGLXYZ(radius, lat, lon2, sin, cos).y
  {
  }

  /** Where sine and cosine obey sin^2 + cos^2 = 1, a converted point lies on
      the sphere of the given radius. */
  lemma ConvertOnSphere(radius: real, lat: real, lon: real, sin: real -> real, cos: real -> real)
    requires PythagoreanAt(sin, cos, PolarAngle(lat)) && PythagoreanAt(sin, cos, Azimuth(lon))
    ensures ConvertLatLongToWebGLXYZ(radius, lat, lon, sin, cos).NormSquared() == radius * radius
  {
    var sp, cp := sin(PolarAngle(lat)), cos(PolarAngle(lat));
    var sa, ca := sin(Azimuth(lon)), cos(Azimuth(lon));
    var p := ConvertLatLongToWebGLXYZ(radius, lat, lon, sin, cos);
    var rs := radius * sp;
    SquareOfProduct(-radius, ca, sp);
    SquareOfProduct(radius, sa, sp);
    assert p.x * p.x + p.z * p.z == (rs * rs) * (ca * ca + sa * sa);
    assert p.x * p.x + p.z * p.z == rs * rs;
    assert p.y * p.y == radius * radius * (cp * cp);
    assert rs * rs == radius * radius * (sp * sp);
  }

  /** (a b c)^2 = (a c)^2 b^2. */
  lemma SquareOfProduct(a: real, b: real, c: real)
    ensures (a * b * c) * (a * b * c) == (a * c) * (a * c) * (b * b)
  {
  }

  // ---------------------------------------------------------------------
  // The 3x3 sample grid
  // ---------------------------------------------------------------------

  /** The radius of the sphere the map shapes are drawn on: just above the
      globe's radius of 20. */
  const MapShapeRadius: real := 20.1

  /** Halfway from a to b, written as the half-difference added to a. */
  function Midpoint(a: real, b: real): (r: real)
    ensures r == (a + b) / 2.0
    ensures Between(a, b, r)
    ensures r - a == b - r
  {
    0.5 * (b - a) + a
  }

  /** Sample j (0, 1 or 2) along the edge from a to b: the first end, the
      midpoint, the second end. */
  function SampleAt(a: real, b: real, j: nat): (r: real)
    ensures Between(a, b, r)
    ensures j == 0 ==> r == a
    ensures j == 1 ==> r == Midpoint(a, b)
    ensures j >= 2 ==> r == b
  {
    if j == 0 then a else if j == 1 then Midpoint(a, b) else b
  }

  /** Fills the latitude and longitude of the nine grid samples: rows run
      from lat1 to lat2 (top, middle, bottom), columns from long1 to long2
      (left, middle, right); index 3r + c is row r, column c. */
  method GridCoordinates(lat1: real, long1: real, lat2: real, long2: real)
    returns (lats: seq<real>, longs: seq<real>)
    ensures |lats| == VertexCount && |longs| == VertexCount
    ensures forall i :: 0 <= i < VertexCount ==> lats[i] == SampleAt(lat1, lat2, GridRow(i))
    ensures forall i :: 0 <= i < VertexCount ==> longs[i] == SampleAt(long1, long2, GridCol(i))
    ensures lats[0] == lats[1] == lats[2] == lat1 && lats[6] == lats[7] == lats[8] == lat2
    ensures lats[3] == lats[4] == lats[5] == (lat1 + lat2) / 2.0
    ensures longs[0] == longs[3] == longs[6] == long1 && longs[2] == longs[5] == longs[8] == long2
    ensures longs[1] == longs[4] == longs[7] == (long1 + long2) / 2.0
  {
    var latArray := new real[VertexCount];
    var longArray := new real[VertexCount];

    latArray[0] := lat1;
    latArray[1] := lat1;
    latArray[2] := lat1;
    latArray[3] := 0.5 * (lat2 - lat1) + lat1;
    latArray[4] := 0.5 * (lat2 - lat1) + lat1;
    latArray[5] := 0.5 * (lat2 - lat1) + lat1;
    latArray[6] := lat2;
    latArray[7] := lat2;
    latArray[8] := lat2;

    longArray[0] := long1;
    longArray[1] := 0.5 * (long2 - long1) + long1;
    longArray[2] := long2;
    longArray[3] := long1;
    longArray[4] := 0.5 * (long2 - long1) + long1;
    longArray[5] := long2;
    longArray[6] := long1;
    longArray[7] := 0.5 * (long2 - long1) + long1;
    longArray[8] := long2;

    lats, longs := latArray[..], longArray[..];
    forall i | 0 <= i < VertexCount
      ensures lats[i] == SampleAt(lat1, lat2, GridRow(i)) && longs[i] == SampleAt(long1, long2, GridCol(i))
    {
      assert i == 0 || i == 1 || i == 2 || i == 3 || i == 4 || i == 5 || i == 6 || i == 7 || i == 8;
    }
  }

  /** The position of grid sample i on the map-shape sphere. */
  function GridVertex(lat1: real, long1: real, lat2: real, long2: real, i: nat,
                      sin: real -> real, cos: real -> real): Vec3
  {
    ConvertLatLongToWebGLXYZ(MapShapeRadius, SampleAt(lat1, lat2, GridRow(i)), SampleAt(long1, long2, GridCol(i)), sin, cos)
  }

  // ---------------------------------------------------------------------
  // The triangle faces
  // ---------------------------------------------------------------------

  /** A triangle given by three vertex indices, as `THREE.Face3`. */
  datatype Face3 = Face3(a: int, b: int, c: int)

  /** The mesh of a map region: its vertices and its faces. */
  datatype MapShape = MapShape(vertices: seq<Vec3>, faces: seq<Face3>)

  /** Face f has v as one of its corners. */
  predicate UsesVertex(f: Face3, v: int)
  {
    f.a == v || f.b == v || f.c == v
  }

  /** Face f runs along the directed edge from u to v. */
  predicate HasEdge(f: Face3, u: int, v: int)
  {
    (f.a == u && f.b == v) || (f.b == u && f.c == v) || (f.c == u && f.a == v)
  }

  /** v is one of the four corners of the grid cell whose top-left corner
      is vertex p: p, its right neighbour, and the two vertices below them. */
  predicate IsCellCorner(v: int, p: int)
  {
    v == p || v == p + 1 || v == p + 3 || v == p + 4
  }

  /** Faces f and g split the grid cell with top-left corner p along the
      diagonal from its top-right to its bottom-left corner: f is (top-left,
      bottom-left, top-right) and g is (bottom-left, bottom-right, top-right). */
  predicate SplitsCell(f: Face3, g: Face3, p: int)
  {
    f == Face3(p, p + 3, p + 1) && g == Face3(p + 3, p + 4, p + 1)
  }

  /** The faces tile the 2x2 grid of cells: faces 2m and 2m + 1 split cell
      m, cells taken row by row (top-left corners 0, 1, 3 and 4). */
  predicate TilesGrid(faces: seq<Face3>)
  {
    |faces| == 8 &&
    SplitsCell(faces[0], faces[1], 0) && SplitsCell(faces[2], faces[3], 1) &&
    SplitsCell(faces[4], faces[5], 3) && SplitsCell(faces[6], faces[7], 4)
  }

  /** The two triangles of a split cell use only the cell's corners, use all
      four of them between them, and share the diagonal, which they run in
      opposite directions, so both are wound the same way. */
  lemma SplitCellTriangles(f: Face3, g: Face3, p: int)
    requires SplitsCell(f, g, p)
    ensures IsCellCorner(f.a, p) && IsCellCorner(f.b, p) && IsCellCorner(f.c, p)
    ensures IsCellCorner(g.a, p) && IsCellCorner(g.b, p) && IsCellCorner(g.c, p)
    ensures forall v :: IsCellCorner(v, p) ==> UsesVertex(f, v) || UsesVertex(g, v)
    ensures HasEdge(f, p + 3, p + 1) && HasEdge(g, p + 1, p + 3)
    ensures forall u, v :: !(HasEdge(f, u, v) && HasEdge(g, u, v))
  {
  }

  /** Vertex v is a corner of some face. */
  predicate Used(faces: seq<Face3>, v: int)
  {
    exists n :: 0 <= n < |faces| && UsesVertex(faces[n], v)
  }

  /** Face f names three of the nine vertices. */
  predicate InGrid(f: Face3)
  {
    0 <= f.a < VertexCount && 0 <= f.b < VertexCount && 0 <= f.c < VertexCount
  }

  /** Every face of a tiling names three of the nine vertices. */
  lemma FacesInRange(faces: seq<Face3>)
    requires TilesGrid(faces)
    ensures forall n :: 0 <= n < |faces| ==> InGrid(faces[n])
  {
    assert faces == [faces[0], faces[1], faces[2], faces[3], faces[4], faces[5], faces[6], faces[7]];
  }

  /** Every one of the nine vertices is a corner of some face of a tiling. */
  lemma EveryVertexUsed(faces: seq<Face3>)
    requires TilesGrid(faces)
    ensures forall v :: 0 <= v < VertexCount ==> Used(faces, v)
  {
    assert faces == [faces[0], faces[1], faces[2], faces[3], faces[4], faces[5], faces[6], faces[7]];
    assert UsesVertex(faces[0], 0) && UsesVertex(faces[0], 1) && UsesVertex(faces[0], 3);
    assert UsesVertex(faces[1], 4) && UsesVertex(faces[3], 2) && UsesVertex(faces[3], 5);
    assert UsesVertex(faces[5], 6) && UsesVertex(faces[5], 7) && UsesVertex(faces[7], 8);
  }

  /** No directed edge is run by two faces of a tiling: every shared edge is
      run in opposite directions, so the whole mesh is wound consistently. */
  lemma ConsistentWinding(faces: seq<Face3>)
    requires TilesGrid(faces)
    ensures forall n, m, u, v :: 0 <= n < m < |faces| && HasEdge(faces[n], u, v) ==> !HasEdge(faces[m], u, v)
  {
    assert faces == [faces[0], faces[1], faces[2], faces[3], faces[4], faces[5], faces[6], faces[7]];
  }

  /** Builds the mesh of the map region with corners (lat1, long1) and
      (lat2, long2): nine vertices on the map-shape sphere in grid order and
      eight faces tiling the grid's four cells. */
  method CreateMapShape(lat1: real, long1: real, lat2: real, long2: real,
                        sin: real -> real, cos: real -> real)
    returns (shape: MapShape)
    ensures |shape.vertices| == VertexCount
    ensures forall i :: 0 <= i < VertexCount ==>
      shape.vertices[i] == GridVertex(lat1, long1, lat2, long2, i, sin, cos)
    ensures TilesGrid(shape.faces)
  {
    var lats, longs := GridCoordinates(lat1, long1, lat2, long2);

    var vertices: seq<Vec3> := [];
    var i := 0;
    while i < VertexCount
      invariant 0 <= i <= VertexCount
      invariant |vertices| == i
      invariant forall j :: 0 <= j < i ==> vertices[j] == GridVertex(lat1, long1, lat2, long2, j, sin, cos)
    {
      vertices := vertices + [ConvertLatLongToWebGLXYZ(MapShapeRadius, lats[i], longs[i], sin, cos)];
      i := i + 1;
    }

    var faces: seq<Face3> := [
      Face3(0, 3, 1), Face3(3, 4, 1), Face3(1, 4, 2), Face3(4, 5, 2),
      Face3(3, 6, 4), Face3(6, 7, 4), Face3(4, 7, 5), Face3(7, 8, 5)
    ];

    shape := MapShape(vertices, faces);
  }

  /** Where sine and cosine obey sin^2 + cos^2 = 1, every grid vertex lies on
      the map-shape sphere of radius 20.1. */
  lemma GridVerticesOnSphere(lat1: real, long1: real, lat2: real, long2: real, i: nat,
                             sin: real -> real, cos: real -> real)
    requires PythagoreanAt(sin, cos, PolarAngle(SampleAt(lat1, lat2, GridRow(i))))
    requires PythagoreanAt(sin, cos, Azimuth(SampleAt(long1, long2, GridCol(i))))
    ensures GridVertex(lat1, long1, lat2, long2, i, sin, cos).NormSquared() == MapShapeRadius * MapShapeRadius
  {
    ConvertOnSphere(MapShapeRadius, SampleAt(lat1, lat2, GridRow(i)), SampleAt(long1, long2, GridCol(i)), sin, cos);
  }
}
