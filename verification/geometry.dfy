/**
  The solved reference geometry of the 3x3x3 puzzle: the colour constants,
  the table of 26 sub-cubes, the per-face vertex macros that expand each
  sub-cube into 36 vertices, and the triangle index buffer.

  Flat vertex layout: vertex `j` (0..5) of face `f` (0..5, in the order
  L, R, B, T, K, F, i.e. -X, +X, -Y, +Y, -Z, +Z) of sub-cube `s` (0..25)
  lives at index `s * 36 + f * 6 + j`.
*/
module Geometry {

  /** The named colour constants of the geometry header. */
  datatype Color = Red | DarkRed | Green | DarkGreen | Blue | DarkBlue | Grey | Yellow | White | Orange

  datatype Vec3 = Vec3(x: real, y: real, z: real)

  /** The RGB triple each colour constant stands for. */
  function Rgb(c: Color): Vec3 {
    match c
    case Red => Vec3(1.0, 0.0, 0.0)
    case DarkRed => Vec3(0.25, 0.0, 0.0)
    case Green => Vec3(0.0, 1.0, 0.0)
    case DarkGreen => Vec3(0.0, 0.25, 0.0)
    case Blue => Vec3(0.0, 0.0, 1.0)
    case DarkBlue => Vec3(0.0, 0.0, 0.25)
    case Grey => Vec3(0.5, 0.5, 0.5)
    case Yellow => Vec3(1.0, 1.0, 0.0)
    case White => Vec3(1.0, 1.0, 1.0)
    case Orange => Vec3(1.0, 0.64, 0.0)
  }

  /** Distinct constants are distinct triples, so copying a colour name is copying its RGB value. */
  lemma RgbIsInjective(a: Color, b: Color)
    ensures Rgb(a) == Rgb(b) <==> a == b
  {}

  datatype Vertex = Vertex(position: Vec3, color: Color)

  const SubCubeCount: nat := 26
  const VertexCount: nat := 936

  /** Index of vertex `j` of face `f` of sub-cube `s` in the flat vertex array. */
  function VertexIndex(s: int, f: int, j: int): int {
    s * 36 + f * 6 + j
  }

  function SubCubeOf(k: int): int {
    k / 36
  }

  function FaceOf(k: int): int {
    k % 36 / 6
  }

  /** Position of vertex `k` within its face. */
  function CornerOf(k: int): int {
    k % 6
  }

  lemma DecodeIndex(k: int)
    requires 0 <= k < VertexCount
    ensures 0 <= SubCubeOf(k) < SubCubeCount && 0 <= FaceOf(k) < 6 && 0 <= CornerOf(k) < 6
    ensures VertexIndex(SubCubeOf(k), FaceOf(k), CornerOf(k)) == k
  {
    var q, m := k / 36, k % 36;
    assert k == q * 36 + m && 0 <= m < 36;
    var f, j := m / 6, m % 6;
    assert m == f * 6 + j && 0 <= j < 6;
    assert 0 <= f < 6;
    assert 0 <= q < SubCubeCount;
    DivModBy6(k, q * 6 + f, j);
  }

  lemma EncodeIndex(s: int, f: int, j: int)
    requires 0 <= s < SubCubeCount && 0 <= f < 6 && 0 <= j < 6
    ensures 0 <= VertexIndex(s, f, j) < VertexCount
    ensures SubCubeOf(VertexIndex(s, f, j)) == s
    ensures FaceOf(VertexIndex(s, f, j)) == f
    ensures CornerOf(VertexIndex(s, f, j)) == j
  {
    var k := VertexIndex(s, f, j);
    DivModBy36(k, s, f * 6 + j);
    DivModBy6(f * 6 + j, f, j);
    DivModBy6(k, s * 6 + f, j);
  }

  lemma DivModBy36(k: int, q: int, r: int)
    requires k == q * 36 + r && 0 <= r < 36
    ensures k / 36 == q && k % 36 == r
  {}

  lemma DivModBy6(k: int, q: int, r: int)
    requires k == q * 6 + r && 0 <= r < 6
    ensures k / 6 == q && k % 6 == r
  {}

  // Sizes of the puzzle (metres) and of the gap between sub-cubes.
  const WMajor: real := 1.0
  const WMinor: real := WMajor / 3.0
  const OffMinor: real := WMinor / 2.0
  const ScaleFactor: real := 0.95

  /** Lower bound, along one axis, of a sub-cube whose centre is `c` cells (-1, 0 or 1) from the origin. */
  function Low(c: int): real {
    (c as real) * 2.0 * OffMinor - OffMinor * ScaleFactor
  }

  /** Upper bound, along one axis, of a sub-cube whose centre is `c` cells from the origin. */
  function High(c: int): real {
    (c as real) * 2.0 * OffMinor + OffMinor * ScaleFactor
  }

  /** A cell of the 3x3x3 grid, or a unit direction, in whole cells along x, y and z. */
  datatype Point3 = Point3(x: int, y: int, z: int)

  /** The six coordinate arguments `x1, x2, y1, y2, z1, z2` of the sub-cube macro. */
  datatype Box = Box(x1: real, x2: real, y1: real, y2: real, z1: real, z2: real)

  /** The box every row of the table gives for the sub-cube centred `c` cells from the origin. */
  function BoxOf(c: Point3): Box {
    Box(Low(c.x), High(c.x), Low(c.y), High(c.y), Low(c.z), High(c.z))
  }

  /** One sub-cube macro invocation: its box and its six face colours in the order L, R, B, T, K, F. */
  datatype SubCubeDef = SubCubeDef(box: Box, colors: seq<Color>)

  /** The grid cell of table row `s`: axis sub-cubes 0-5, edge sub-cubes 6-17, corner sub-cubes 18-25. */
  function CellAt(s: int): Point3
    requires 0 <= s < SubCubeCount
  {
    match s
    case 0 => Point3(-1, 0, 0)
    case 1 => Point3(1, 0, 0)
    case 2 => Point3(0, -1, 0)
    case 3 => Point3(0, 1, 0)
    case 4 => Point3(0, 0, -1)
    case 5 => Point3(0, 0, 1)
    case 6 => Point3(-1, -1, 0)
    case 7 => Point3(-1, 1, 0)
    case 8 => Point3(-1, 0, -1)
    case 9 => Point3(-1, 0, 1)
    case 10 => Point3(1, -1, 0)
    case 11 => Point3(1, 1, 0)
    case 12 => Point3(1, 0, -1)
    case 13 => Point3(1, 0, 1)
    case 14 => Point3(0, -1, -1)
    case 15 => Point3(0, -1, 1)
    case 16 => Point3(0, 1, -1)
    case 17 => Point3(0, 1, 1)
    case 18 => Point3(-1, -1, -1)
    case 19 => Point3(-1, -1, 1)
    case 20 => Point3(-1, 1, -1)
    case 21 => Point3(-1, 1, 1)
    case 22 => Point3(1, -1, -1)
    case 23 => Point3(1, -1, 1)
    case 24 => Point3(1, 1, -1)
    case 25 => Point3(1, 1, 1)
  }

  /** The six colour arguments of table row `s`. */
  function ColorsAt(s: int): (cs: seq<Color>)
    requires 0 <= s < SubCubeCount
    ensures |cs| == 6
  {
    match s
    // axis sub-cubes
    case 0 => [White, Grey, Grey, Grey, Grey, Grey]
    case 1 => [Grey, Yellow, Grey, Grey, Grey, Grey]
    case 2 => [Grey, Grey, Green, Grey, Grey, Grey]
    case 3 => [Grey, Grey, Grey, Blue, Grey, Grey]
    case 4 => [Grey, Grey, Grey, Grey, Orange, Grey]
    case 5 => [Grey, Grey, Grey, Grey, Grey, Red]
    // edge sub-cubes
    case 6 => [White, Grey, Green, Grey, Grey, Grey]
    case 7 => [White, Grey, Grey, Blue, Grey, Grey]
    case 8 => [White, Grey, Grey, Grey, Orange, Grey]
    case 9 => [White, Grey, Grey, Grey, Grey, Red]
    case 10 => [Grey, Yellow, Green, Grey, Grey, Grey]
    case 11 => [Grey, Yellow, Grey, Blue, Grey, Grey]
    case 12 => [Grey, Yellow, Grey, Grey, Orange, Grey]
    case 13 => [Grey, Yellow, Grey, Grey, Grey, Red]
    case 14 => [Grey, Grey, Green, Grey, Orange, Grey]
    case 15 => [Grey, Grey, Green, Grey, Grey, Red]
    case 16 => [Grey, Grey, Grey, Blue, Orange, Grey]
    case 17 => [Grey, Grey, Grey, Blue, Grey, Red]
    // corner sub-cubes
    case 18 => [White, Grey, Green, Grey, Orange, Grey]
    case 19 => [White, Grey, Green, Grey, Grey, Red]
    case 20 => [White, Grey, Grey, Blue, Orange, Grey]
    case 21 => [White, Grey, Grey, Blue, Grey, Red]
    case 22 => [Grey, Yellow, Green, Grey, Orange, Grey]
    case 23 => [Grey, Yellow, Green, Grey, Grey, Red]
    case 24 => [Grey, Yellow, Grey, Blue, Orange, Grey]
    case 25 => [Grey, Yellow, Grey, Blue, Grey, Red]
  }

  /** Sub-cube `s` of the solved puzzle, as its row of the table expands. */
  function SubCubeAt(s: int): (d: SubCubeDef)
    requires 0 <= s < SubCubeCount
    ensures |d.colors| == 6
  {
    SubCubeDef(BoxOf(CellAt(s)), ColorsAt(s))
  }

  /** The sub-cube table in declaration order. */
  function SubCubes(): seq<SubCubeDef> {
    seq(SubCubeCount, s requires 0 <= s < SubCubeCount => SubCubeAt(s))
  }

  lemma SubCubesWellFormed()
    ensures |SubCubes()| == SubCubeCount
    ensures forall s :: 0 <= s < |SubCubes()| ==> |SubCubes()[s].colors| == 6
  {}

  /** Coordinate `axis` (0 = x, 1 = y, 2 = z) of a point. */
  function Coord(p: Vec3, axis: int): real
    requires 0 <= axis < 3
  {
    if axis == 0 then p.x else if axis == 1 then p.y else p.z
  }

  /** The coordinate at which face `f` of a box lies, on the axis `f / 2` perpendicular to it. */
  function PlaneOf(b: Box, f: int): real
    requires 0 <= f < 6
  {
    match f
    case 0 => b.x1
    case 1 => b.x2
    case 2 => b.y1
    case 3 => b.y2
    case 4 => b.z1
    case 5 => b.z2
  }

  /** The eight corners of a box. */
  function BoxCorners(b: Box): set<Vec3> {
    set x, y, z | x in {b.x1, b.x2} && y in {b.y1, b.y2} && z in {b.z1, b.z2} :: Vec3(x, y, z)
  }

  /** The corners of a box that lie on the plane of face `f`. */
  function FaceCorners(b: Box, f: int): set<Vec3>
    requires 0 <= f < 6
  {
    set p | p in BoxCorners(b) && Coord(p, f / 2) == PlaneOf(b, f)
  }

  /** The six positions one face macro emits (two triangles, clockwise). */
  function SidePositions(b: Box, f: int): seq<Vec3>
    requires 0 <= f < 6
  {
    match f
    case 0 =>
      [Vec3(b.x1, b.y2, b.z1), Vec3(b.x1, b.y1, b.z2), Vec3(b.x1, b.y1, b.z1),
       Vec3(b.x1, b.y2, b.z1), Vec3(b.x1, b.y2, b.z2), Vec3(b.x1, b.y1, b.z2)]
    case 1 =>
      [Vec3(b.x2, b.y2, b.z1), Vec3(b.x2, b.y1, b.z1), Vec3(b.x2, b.y1, b.z2),
       Vec3(b.x2, b.y2, b.z1), Vec3(b.x2, b.y1, b.z2), Vec3(b.x2, b.y2, b.z2)]
    case 2 =>
      [Vec3(b.x1, b.y1, b.z1), Vec3(b.x1, b.y1, b.z2), Vec3(b.x2, b.y1, b.z2),
       Vec3(b.x1, b.y1, b.z1), Vec3(b.x2, b.y1, b.z2), Vec3(b.x2, b.y1, b.z1)]
    case 3 =>
      [Vec3(b.x1, b.y2, b.z1), Vec3(b.x2, b.y2, b.z1), Vec3(b.x2, b.y2, b.z2),
       Vec3(b.x1, b.y2, b.z1), Vec3(b.x2, b.y2, b.z2), Vec3(b.x1, b.y2, b.z2)]
    case 4 =>
      [Vec3(b.x1, b.y1, b.z1), Vec3(b.x2, b.y1, b.z1), Vec3(b.x2, b.y2, b.z1),
       Vec3(b.x1, b.y1, b.z1), Vec3(b.x2, b.y2, b.z1), Vec3(b.x1, b.y2, b.z1)]
    case 5 =>
      [Vec3(b.x1, b.y1, b.z2), Vec3(b.x1, b.y2, b.z2), Vec3(b.x2, b.y2, b.z2),
       Vec3(b.x1, b.y1, b.z2), Vec3(b.x2, b.y2, b.z2), Vec3(b.x2, b.y1, b.z2)]
  }

  /** The six vertices one face macro emits for face `f` of a sub-cube: all carry that face's colour. */
  function Side(d: SubCubeDef, f: int): (r: seq<Vertex>)
    requires 0 <= f < 6 && |d.colors| == 6
    ensures |r| == 6
    ensures forall j :: 0 <= j < 6 ==> r[j].color == d.colors[f]
  {
    var ps := SidePositions(d.box, f);
    seq(6, j requires 0 <= j < 6 => Vertex(ps[j], d.colors[f]))
  }

  /**
    The positions of one face macro lie in the face's plane, vertex 3
    repeats vertex 0, and together they cover exactly the face's four corners.
  */
  lemma FaceGeometry(b: Box, f: int)
    requires 0 <= f < 6
    ensures |SidePositions(b, f)| == 6
    ensures forall j :: 0 <= j < 6 ==> Coord(SidePositions(b, f)[j], f / 2) == PlaneOf(b, f)
    ensures SidePositions(b, f)[3] == SidePositions(b, f)[0]
    ensures (set j | 0 <= j < 6 :: SidePositions(b, f)[j]) == FaceCorners(b, f)
  {
    FacePlane(b, f);
    FaceCover(b, f);
  }

  /** The six positions of a face macro lie in the face's plane, and vertex 3 repeats vertex 0. */
  lemma FacePlane(b: Box, f: int)
    requires 0 <= f < 6
    ensures |SidePositions(b, f)| == 6
    ensures forall j :: 0 <= j < 6 ==> Coord(SidePositions(b, f)[j], f / 2) == PlaneOf(b, f)
    ensures SidePositions(b, f)[3] == SidePositions(b, f)[0]
  {}

  /** The six positions of a face macro are exactly the face's four corners. */
  lemma FaceCover(b: Box, f: int)
    requires 0 <= f < 6
    ensures (set j | 0 <= j < 6 :: SidePositions(b, f)[j]) == FaceCorners(b, f)
  {
    FacePlane(b, f);
    var ps := SidePositions(b, f);
    var lhs := set j | 0 <= j < 6 :: ps[j];
    assert lhs == {ps[0], ps[1], ps[2], ps[3], ps[4], ps[5]} by {
      forall p | p in lhs ensures p in {ps[0], ps[1], ps[2], ps[3], ps[4], ps[5]} {
        var j :| 0 <= j < 6 && ps[j] == p;
      }
      assert ps[0] in lhs && ps[1] in lhs && ps[2] in lhs && ps[3] in lhs && ps[4] in lhs && ps[5] in lhs;
    }
    forall p | p in FaceCorners(b, f) ensures p in lhs {
      assert p in BoxCorners(b);
      assert p.x in {b.x1, b.x2} && p.y in {b.y1, b.y2} && p.z in {b.z1, b.z2};
    }
    forall p | p in lhs ensures p in FaceCorners(b, f) {
      assert p in BoxCorners(b) by {
        assert p.x in {b.x1, b.x2} && p.y in {b.y1, b.y2} && p.z in {b.z1, b.z2};
      }
    }
  }

  /** The 36 vertices one sub-cube macro emits: its six faces in the order L, R, B, T, K, F. */
  function SubCubeVertices(d: SubCubeDef): (r: seq<Vertex>)
    requires |d.colors| == 6
    ensures |r| == 36
  {
    Side(d, 0) + Side(d, 1) + Side(d, 2) + Side(d, 3) + Side(d, 4) + Side(d, 5)
  }

  /** Vertex `j` of face `f` sits at offset `f * 6 + j` of the sub-cube's block. */
  lemma SubCubeBlock(d: SubCubeDef, f: int, j: int)
    requires |d.colors| == 6 && 0 <= f < 6 && 0 <= j < 6
    ensures SubCubeVertices(d)[f * 6 + j] == Side(d, f)[j]
  {
    var r := SubCubeVertices(d);
    var s0, s1, s2, s3, s4, s5 := Side(d, 0), Side(d, 1), Side(d, 2), Side(d, 3), Side(d, 4), Side(d, 5);
    assert r == s0 + s1 + s2 + s3 + s4 + s5;
    FaceCases(f);
  }

  /** Concatenates blocks of 36 vertices. */
  function Flatten<T>(blocks: seq<seq<T>>): (r: seq<T>)
    requires forall i :: 0 <= i < |blocks| ==> |blocks[i]| == 36
    ensures |r| == 36 * |blocks|
  {
    if blocks == [] then [] else blocks[0] + Flatten(blocks[1..])
  }

  /** Block `s` starts at offset `s * 36` of the concatenation. */
  lemma {:induction false} FlattenBlock<T>(blocks: seq<seq<T>>, s: int, i: int)
    requires forall i :: 0 <= i < |blocks| ==> |blocks[i]| == 36
    requires 0 <= s < |blocks| && 0 <= i < 36
    ensures Flatten(blocks)[s * 36 + i] == blocks[s][i]
    decreases s
  {
    if s > 0 {
      FlattenBlock(blocks[1..], s - 1, i);
      assert blocks[1..][s - 1] == blocks[s];
    }
  }

  /** The 36-vertex block each row of the sub-cube table expands to. */
  function Blocks(): (bs: seq<seq<Vertex>>)
    ensures |bs| == SubCubeCount
    ensures forall s :: 0 <= s < SubCubeCount ==> bs[s] == SubCubeVertices(SubCubeAt(s))
  {
    seq(SubCubeCount, s requires 0 <= s < SubCubeCount => SubCubeVertices(SubCubeAt(s)))
  }

  /** The reference vertex table `c_cubeVertices`: the 26 rows of the sub-cube table expanded in order. */
  function ReferenceVertices(): (r: seq<Vertex>)
    ensures |r| == VertexCount
  {
    var blocks := Blocks();
    assert forall s :: 0 <= s < |blocks| ==> |blocks[s]| == 36;
    Flatten(blocks)
  }

  /**
    The table is 26 blocks of 36 vertices, one block per sub-cube in
    table order; within a block the six faces follow in the order
    L, R, B, T, K, F, six vertices each.
  */
  lemma ReferenceLayout(s: int, f: int, j: int)
    requires 0 <= s < SubCubeCount && 0 <= f < 6 && 0 <= j < 6
    ensures 0 <= VertexIndex(s, f, j) < VertexCount
    ensures ReferenceVertices()[VertexIndex(s, f, j)] == Side(SubCubeAt(s), f)[j]
  {
    var bs, k := Blocks(), VertexIndex(s, f, j);
    assert k == s * 36 + (f * 6 + j);
    FlattenBlock(bs, s, f * 6 + j);
    assert ReferenceVertices()[k] == bs[s][f * 6 + j];
    SubCubeBlock(SubCubeAt(s), f, j);
  }

  /** Solved colour of face `f` of sub-cube `s`. */
  function RefColor(s: int, f: int): Color
    requires 0 <= s < SubCubeCount && 0 <= f < 6
  {
    ColorsAt(s)[f]
  }

  /** Face `f` of sub-cube `s` is on the outside of the solved puzzle. */
  predicate Visible(s: int, f: int)
    requires 0 <= s < SubCubeCount && 0 <= f < 6
  {
    RefColor(s, f) != Grey
  }

  /** Every vertex of the reference table carries the solved colour of its (sub-cube, face). */
  lemma ReferenceColors(s: int, f: int, j: int)
    requires 0 <= s < SubCubeCount && 0 <= f < 6 && 0 <= j < 6
    ensures 0 <= VertexIndex(s, f, j) < VertexCount
    ensures ReferenceVertices()[VertexIndex(s, f, j)].color == RefColor(s, f)
  {
    ReferenceLayout(s, f, j);
  }

  /** Colour that face `f` of the solved puzzle shows: L White, R Yellow, B Green, T Blue, K Orange, F Red. */
  function SolvedColor(f: int): Color
    requires 0 <= f < 6
  {
    match f
    case 0 => White
    case 1 => Yellow
    case 2 => Green
    case 3 => Blue
    case 4 => Orange
    case 5 => Red
  }

  /** The face across the sub-cube from face `f`: L/R, B/T, K/F. */
  function OppositeFace(f: int): int
    requires 0 <= f < 6
  {
    if f % 2 == 0 then f + 1 else f - 1
  }

  /** Number of faces of sub-cube `s` that show a colour in the solved puzzle. */
  function VisibleFaceCount(s: int): nat
    requires 0 <= s < SubCubeCount
  {
    (if Visible(s, 0) then 1 else 0) + (if Visible(s, 1) then 1 else 0) + (if Visible(s, 2) then 1 else 0)
    + (if Visible(s, 3) then 1 else 0) + (if Visible(s, 4) then 1 else 0) + (if Visible(s, 5) then 1 else 0)
  }

  /** Centre of a box along `axis`. */
  function Centre(b: Box, axis: int): real
    requires 0 <= axis < 3
  {
    if axis == 0 then (b.x1 + b.x2) / 2.0 else if axis == 1 then (b.y1 + b.y2) / 2.0 else (b.z1 + b.z2) / 2.0
  }

  /** -1 for the faces on the negative side of their axis (L, B, K), +1 for the others. */
  function FaceSign(f: int): (sign: int)
    requires 0 <= f < 6
    ensures sign == -1 || sign == 1
  {
    if f % 2 == 0 then -1 else 1
  }

  lemma SubCubeCases(s: int)
    requires 0 <= s < SubCubeCount
    ensures s == 0 || s == 1 || s == 2 || s == 3 || s == 4 || s == 5 || s == 6 || s == 7 || s == 8
         || s == 9 || s == 10 || s == 11 || s == 12 || s == 13 || s == 14 || s == 15 || s == 16
         || s == 17 || s == 18 || s == 19 || s == 20 || s == 21 || s == 22 || s == 23 || s == 24 || s == 25
  {}

  lemma FaceCases(f: int)
    requires 0 <= f < 6
    ensures f == 0 || f == 1 || f == 2 || f == 3 || f == 4 || f == 5
  {}

  /** Every face of the solved table is Grey or the colour of its face index, so each colour sits on one face index only. */
  lemma SolvedFacesCarryTheirFaceColour()
    ensures forall s, f :: 0 <= s < SubCubeCount && 0 <= f < 6 ==> RefColor(s, f) == Grey || RefColor(s, f) == SolvedColor(f)
  {
    forall s, f | 0 <= s < SubCubeCount && 0 <= f < 6
      ensures RefColor(s, f) == Grey || RefColor(s, f) == SolvedColor(f)
    {
      SubCubeCases(s);
      FaceCases(f);
    }
  }

  /** Axis sub-cube `i` shows a colour on face `i` and Grey everywhere else. */
  lemma AxisSubCubesShowOneFace()
    ensures forall s, f :: 0 <= s < 6 && 0 <= f < 6 ==> (Visible(s, f) <==> f == s)
  {
    forall s, f | 0 <= s < 6 && 0 <= f < 6
      ensures Visible(s, f) <==> f == s
    {
      SubCubeCases(s);
      FaceCases(f);
    }
  }

  /** Axis sub-cubes (0-5) show one face, edges (6-17) two and corners (18-25) three. */
  lemma VisibleFaceCounts()
    ensures forall s :: 0 <= s < SubCubeCount ==>
      VisibleFaceCount(s) == (if s < 6 then 1 else if s < 18 then 2 else 3)
  {
    forall s | 0 <= s < SubCubeCount
      ensures VisibleFaceCount(s) == (if s < 6 then 1 else if s < 18 then 2 else 3)
    {
      SubCubeCases(s);
    }
  }

  /** No sub-cube shows a colour on two opposite faces. */
  lemma NoOppositeFacesVisible()
    ensures forall s, f :: 0 <= s < SubCubeCount && 0 <= f < 6 ==> !(Visible(s, f) && Visible(s, OppositeFace(f)))
  {
    forall s, f | 0 <= s < SubCubeCount && 0 <= f < 6
      ensures !(Visible(s, f) && Visible(s, OppositeFace(f)))
    {
      SubCubeCases(s);
      FaceCases(f);
    }
  }

  /** Coordinate `axis` of a grid point. */
  function Component(p: Point3, axis: int): int
    requires 0 <= axis < 3
  {
    if axis == 0 then p.x else if axis == 1 then p.y else p.z
  }

  /**
    The box of a cell is centred `2 * OffMinor` per cell from the origin on
    every axis, so the centre of sub-cube `s` on the axis of face `f` is
    `2 * OffMinor` towards `f` exactly when `ColourMatchesPosition` says the
    face is coloured.
  */
  lemma CellCentre(c: Point3, axis: int)
    requires 0 <= axis < 3
    ensures Centre(BoxOf(c), axis) == (Component(c, axis) as real) * 2.0 * OffMinor
  {}

  /** A sub-cube shows a colour on face `f` exactly when its cell lies one step from the centre towards that face. */
  lemma ColourMatchesPosition(s: int, f: int)
    requires 0 <= s < SubCubeCount && 0 <= f < 6
    ensures Visible(s, f) <==> Component(CellAt(s), f / 2) == FaceSign(f)
  {
    var a := f / 2;
    CellMatchesColours(s);
    assert Component(CellAt(s), a) == Offset(s, a) by {
      assert a == 0 || a == 1 || a == 2;
    }
    OffsetTowardsFace(s, f);
  }

  /** A face shows a colour exactly when the sub-cube's offset on the face's axis points towards it. */
  lemma OffsetTowardsFace(s: int, f: int)
    requires 0 <= s < SubCubeCount && 0 <= f < 6
    ensures Visible(s, f) <==> Offset(s, f / 2) == FaceSign(f)
  {
    var a := f / 2;
    assert !(Visible(s, 2 * a + 1) && Visible(s, 2 * a)) by {
      CellMatchesColours(s);
      assert a == 0 || a == 1 || a == 2;
    }
    if f % 2 == 0 {
      assert f == 2 * a;
    } else {
      assert f == 2 * a + 1;
    }
  }

  /** One line of the index buffer: the six indices of face `n` (counting faces across all sub-cubes). */
  function IndexRow(n: nat): seq<int> {
    [6 * n, 6 * n + 1, 6 * n + 2, 6 * n + 3, 6 * n + 4, 6 * n + 5]
  }

  /** The first `n` lines of the index buffer: every index names the vertex at its own position. */
  function IndexRows(n: nat): (r: seq<int>)
    ensures |r| == 6 * n
    ensures forall i :: 0 <= i < |r| ==> r[i] == i
  {
    if n == 0 then [] else IndexRows(n - 1) + IndexRow(n - 1)
  }

  /** Number of 16-bit indices `glDrawElements` reads: two triangles per face, six faces per sub-cube. */
  const IndexCount: nat := 936

  /** The index buffer: 156 lines of six indices, one line per face. */
  function CubeIndices(): (r: seq<int>)
    ensures |r| == IndexCount && forall i :: 0 <= i < |r| ==> r[i] == i
  {
    IndexRows(SubCubeCount * 6)
  }

  /**
    The index buffer draws every vertex exactly once, in table order, and
    each index fits the unsigned 16-bit element type.
  */
  lemma CubeIndicesAreIdentity()
    ensures |CubeIndices()| == IndexCount == VertexCount
    ensures forall i :: 0 <= i < IndexCount ==> CubeIndices()[i] == i && 0 <= CubeIndices()[i] < 0x1_0000
  {}

  /**
    Each triangle of the index buffer joins three vertices of one face of one
    sub-cube, and they are either the first or the last three vertices the
    face macro emits.
  */
  lemma TrianglesStayOnOneFace(t: int)
    requires 0 <= t < IndexCount / 3
    ensures var a, b, c := CubeIndices()[3 * t], CubeIndices()[3 * t + 1], CubeIndices()[3 * t + 2];
      SubCubeOf(a) == SubCubeOf(b) == SubCubeOf(c) && FaceOf(a) == FaceOf(b) == FaceOf(c)
      && CornerOf(b) == CornerOf(a) + 1 && CornerOf(c) == CornerOf(a) + 2 && (CornerOf(a) == 0 || CornerOf(a) == 3)
  {
    CubeIndicesAreIdentity();
    var q, m := t / 2, t % 2;
    DivModBy6(3 * t, q, 3 * m);
    DivModBy6(3 * t + 1, q, 3 * m + 1);
    DivModBy6(3 * t + 2, q, 3 * m + 2);
    var s, f := q / 6, q % 6;
    DivModBy36(3 * t, s, f * 6 + 3 * m);
    DivModBy36(3 * t + 1, s, f * 6 + 3 * m + 1);
    DivModBy36(3 * t + 2, s, f * 6 + 3 * m + 2);
    DivModBy6(f * 6 + 3 * m, f, 3 * m);
    DivModBy6(f * 6 + 3 * m + 1, f, 3 * m + 1);
    DivModBy6(f * 6 + 3 * m + 2, f, 3 * m + 2);
  }
  /** Cell offset of sub-cube `s` along `axis`, read off its colours: towards the face that shows one, 0 when neither does. */
  function Offset(s: int, axis: int): int
    requires 0 <= s < SubCubeCount && 0 <= axis < 3
  {
    if Visible(s, 2 * axis + 1) then 1 else if Visible(s, 2 * axis) then -1 else 0
  }
  /** Outward normal of face `f`. */
  function Normal(f: int): (n: Point3)
    requires 0 <= f < 6
  {
    match f
    case 0 => Point3(-1, 0, 0)
    case 1 => Point3(1, 0, 0)
    case 2 => Point3(0, -1, 0)
    case 3 => Point3(0, 1, 0)
    case 4 => Point3(0, 0, -1)
    case 5 => Point3(0, 0, 1)
  }

  /** A unit vector along one of the coordinate axes. */
  predicate UnitVector(n: Point3) {
    || ((n.x == 1 || n.x == -1) && n.y == 0 && n.z == 0)
    || (n.x == 0 && (n.y == 1 || n.y == -1) && n.z == 0)
    || (n.x == 0 && n.y == 0 && (n.z == 1 || n.z == -1))
  }

  /** The face whose outward normal is the unit vector `n`. */
  function FaceWithNormal(n: Point3): int {
    if n.x == -1 then 0
    else if n.x == 1 then 1
    else if n.y == -1 then 2
    else if n.y == 1 then 3
    else if n.z == -1 then 4
    else 5
  }

  /** Every face normal is a unit vector, and naming the face of a normal gives the face back. */
  lemma NormalIsUnit(f: int)
    requires 0 <= f < 6
    ensures UnitVector(Normal(f)) && FaceWithNormal(Normal(f)) == f
  {
    FaceCases(f);
  }

  /** Every unit vector is the normal of exactly the face `FaceWithNormal` names. */
  lemma FaceOfUnit(n: Point3)
    requires UnitVector(n)
    ensures 0 <= FaceWithNormal(n) < 6 && Normal(FaceWithNormal(n)) == n
  {}

  /** Position of a grid cell in x-major order, 0..26; the hidden centre is 13. */
  function CellCode(p: Point3): int {
    9 * (p.x + 1) + 3 * (p.y + 1) + (p.z + 1)
  }

  /** The sub-cube whose cell has code `c`, or -1 for the hidden centre. */
  function SubCubeWithCode(c: int): int
    requires 0 <= c < 27
  {
    match c
    case 0 => 18
    case 1 => 6
    case 2 => 19
    case 3 => 8
    case 4 => 0
    case 5 => 9
    case 6 => 20
    case 7 => 7
    case 8 => 21
    case 9 => 14
    case 10 => 2
    case 11 => 15
    case 12 => 4
    case 13 => -1
    case 14 => 5
    case 15 => 16
    case 16 => 3
    case 17 => 17
    case 18 => 22
    case 19 => 10
    case 20 => 23
    case 21 => 12
    case 22 => 1
    case 23 => 13
    case 24 => 24
    case 25 => 11
    case 26 => 25
  }

  /** Every sub-cube sits in a grid cell, and looking that cell up gives the sub-cube back. */
  lemma CellLookup(s: int)
    requires 0 <= s < SubCubeCount
    ensures -1 <= CellAt(s).x <= 1 && -1 <= CellAt(s).y <= 1 && -1 <= CellAt(s).z <= 1
    ensures SubCubeWithCode(CellCode(CellAt(s))) == s
  {
    SubCubeCases(s);
  }

  /** No two sub-cubes share a cell, and none sits at the hidden centre. */
  lemma CellsAreDistinct(s: int, u: int)
    requires 0 <= s < SubCubeCount && 0 <= u < SubCubeCount
    ensures CellAt(s) == CellAt(u) <==> s == u
    ensures CellAt(s) != Point3(0, 0, 0)
  {
    CellLookup(s);
    CellLookup(u);
  }

  /**
    A sub-cube shows a colour on face `f` exactly when it sits one cell
    from the centre towards that face: the colour columns and the
    coordinate columns of the table describe the same arrangement.
  */
  lemma CellMatchesColours(s: int)
    requires 0 <= s < SubCubeCount
    ensures CellAt(s) == Point3(Offset(s, 0), Offset(s, 1), Offset(s, 2))
    ensures !(Visible(s, 0) && Visible(s, 1)) && !(Visible(s, 2) && Visible(s, 3)) && !(Visible(s, 4) && Visible(s, 5))
  {
    SubCubeCases(s);
  }

  /** A point of the 3x3x3 grid: every coordinate is -1, 0 or 1. */
  predicate InGrid(p: Point3) {
    -1 <= p.x <= 1 && -1 <= p.y <= 1 && -1 <= p.z <= 1
  }

  /** Every grid cell except the hidden centre holds exactly the sub-cube the code table names. */
  lemma GridCells(p: Point3)
    requires InGrid(p) && p != Point3(0, 0, 0)
    ensures 0 <= CellCode(p) < 27
    ensures 0 <= SubCubeWithCode(CellCode(p)) < SubCubeCount && CellAt(SubCubeWithCode(CellCode(p))) == p
  {
    assert p.x == -1 || p.x == 0 || p.x == 1;
    assert p.y == -1 || p.y == 0 || p.y == 1;
    assert p.z == -1 || p.z == 0 || p.z == 1;
  }

  /** The sub-cube sitting in grid cell `p`, any cell but the hidden centre. */
  function SubCubeInCell(p: Point3): (s: int)
    requires InGrid(p) && p != Point3(0, 0, 0)
    ensures 0 <= s < SubCubeCount && CellAt(s) == p
  {
    GridCells(p);
    SubCubeWithCode(CellCode(p))
  }

  /** The normal of face `f` points along the face's axis, towards the face's side. */
  lemma NormalPointsOut(f: int)
    requires 0 <= f < 6
    ensures forall axis :: 0 <= axis < 3 ==> Component(Normal(f), axis) == (if axis == f / 2 then FaceSign(f) else 0)
  {
    FaceCases(f);
  }
}
