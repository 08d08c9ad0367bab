/**
  The six face turns of the plugin and the tables hard-coded in each
  `rotate_X` routine: the nine participating sub-cubes, the per-tick
  rotation step, the direction handed to the turn counter, the four edge
  sub-cubes painted Grey on completion and the sixteen colour copies made
  from the snapshot.

  Alongside the tables this module gives the geometric reading of a turn:
  a quarter turn of the integer grid about the turning face's axis, and
  the map it induces on (sub-cube, face) slots.
*/
module Turns {
  import opened Wrappers
  import opened Geometry

  /** The six face turns, in the order of their command values 1..6. */
  datatype Turn = R | L | U | D | F | B

  /** The turn a command value selects: 1..6 for R, L, U, D, F, B; every other value selects none. */
  function TurnOf(cmd: int): (t: Option<Turn>)
    ensures t.Some? <==> 1 <= cmd <= 6
  {
    if cmd == 1 then Some(R)
    else if cmd == 2 then Some(L)
    else if cmd == 3 then Some(U)
    else if cmd == 4 then Some(D)
    else if cmd == 5 then Some(F)
    else if cmd == 6 then Some(B)
    else None
  }

  /** The command value that selects turn `t`. */
  function CmdOf(t: Turn): (cmd: int)
    ensures 1 <= cmd <= 6 && TurnOf(cmd) == Some(t)
  {
    match t
    case R => 1
    case L => 2
    case U => 3
    case D => 4
    case F => 5
    case B => 6
  }

  /** Command values and turns are in one-to-one correspondence. */
  lemma CommandRoundTrip(cmd: int)
    requires 1 <= cmd <= 6
    ensures TurnOf(cmd).Some? && CmdOf(TurnOf(cmd).value) == cmd
  {}

  /** The face (0..5, order L, R, B, T, K, F) whose layer the turn moves. */
  function TurnFace(t: Turn): (f: int)
    ensures 0 <= f < 6
  {
    match t
    case R => 1
    case L => 0
    case U => 3
    case D => 2
    case F => 5
    case B => 4
  }

  /** The `dir` argument each `rotate_X` passes to the turn counter. */
  function Direction(t: Turn): (d: int)
    ensures d == -1 || d == 1
  {
    match t
    case R => -1
    case L => 1
    case U => -1
    case D => 1
    case F => -1
    case B => 1
  }

  /** The coordinate axis a turn rotates about: 0 for x, 1 for y, 2 for z. */
  function TurnAxis(t: Turn): (axis: int)
    ensures 0 <= axis < 3
  {
    match t
    case R => 0
    case L => 0
    case U => 1
    case D => 1
    case F => 2
    case B => 2
  }

  /** The axis of a turn is the axis of its face's normal. */
  lemma TurnAxisIsFaceAxis(t: Turn)
    ensures TurnAxis(t) == TurnFace(t) / 2
  {}


  /** Rotation angles about x, y and z in quarter-degrees (0.25 degree units). */
  datatype Angles = Angles(x: int, y: int, z: int)

  /** Component of `a` about axis 0 (x), 1 (y) or 2 (z). */
  function AngleAbout(a: Angles, axis: int): int
    requires 0 <= axis < 3
  {
    if axis == 0 then a.x else if axis == 1 then a.y else a.z
  }

  /** The angles each `rotate_X` hands to `rotate_subcube` on every tick. */
  function StepAngles(t: Turn): (a: Angles)
    ensures a.x * a.x + a.y * a.y + a.z * a.z == 1
    ensures AngleAbout(a, TurnAxis(t)) == Direction(t)
  {
    match t
    case R => Angles(-1, 0, 0)
    case L => Angles(1, 0, 0)
    case U => Angles(0, -1, 0)
    case D => Angles(0, 1, 0)
    case F => Angles(0, 0, -1)
    case B => Angles(0, 0, 1)
  }

  /**
    Each tick rotates by a quarter-degree about the axis of the turning
    face only, and in the same sense as the `dir` the counter is stepped by.
  */
  lemma StepTurnsAboutTheFaceAxis(t: Turn)
    ensures forall axis :: 0 <= axis < 3 ==>
      AngleAbout(StepAngles(t), axis) == (if axis == TurnAxis(t) then Direction(t) else 0)
  {}

  /** The `subcube_indices` array of each `rotate_X`. */
  function Participants(t: Turn): (ps: seq<int>)
    ensures |ps| == 9
    ensures forall j :: 0 <= j < |ps| ==> 0 <= ps[j] < SubCubeCount
    ensures forall j, l :: 0 <= j < l < |ps| ==> ps[j] != ps[l]
  {
    match t
    case R => var ps := [1, 10, 11, 12, 13, 22, 23, 24, 25]; IncreasingIsDistinct(ps, SubCubeCount); ps
    case L => var ps := [0, 6, 7, 8, 9, 18, 19, 20, 21]; IncreasingIsDistinct(ps, SubCubeCount); ps
    case U => var ps := [3, 7, 11, 16, 17, 20, 21, 24, 25]; IncreasingIsDistinct(ps, SubCubeCount); ps
    case D => var ps := [2, 6, 10, 14, 15, 18, 19, 22, 23]; IncreasingIsDistinct(ps, SubCubeCount); ps
    case F => var ps := [5, 9, 13, 15, 17, 19, 21, 23, 25]; IncreasingIsDistinct(ps, SubCubeCount); ps
    case B => var ps := [4, 8, 12, 14, 16, 18, 20, 22, 24]; IncreasingIsDistinct(ps, SubCubeCount); ps
  }


  /**
    A strictly increasing list of naturals that ends below `bound` never
    repeats an element and stays below `bound`.
  */
  lemma {:induction false} IncreasingIsDistinct(s: seq<int>, bound: int)
    requires forall j :: 0 <= j < |s| - 1 ==> s[j] < s[j + 1]
    requires |s| > 0 ==> 0 <= s[0] && s[|s| - 1] < bound
    ensures forall j :: 0 <= j < |s| ==> 0 <= s[j] < bound
    ensures forall j, l :: 0 <= j < l < |s| ==> s[j] < s[l]
  {
    if |s| > 1 {
      IncreasingIsDistinct(s[1..], bound);
      forall l | 1 < l < |s| ensures s[0] < s[l] {
        assert s[1..][0] < s[1..][l - 1];
      }
    }
  }

  /** The sub-cubes each `rotate_X` paints Grey before copying colours back. */
  function GreyedEdges(t: Turn): (es: seq<int>)
    ensures |es| == 4
    ensures forall j :: 0 <= j < |es| ==> 6 <= es[j] < 18
  {
    match t
    case R => [10, 11, 12, 13]
    case L => [6, 7, 8, 9]
    case U => [7, 11, 16, 17]
    case D => [6, 10, 14, 15]
    case F => [9, 13, 15, 17]
    case B => [8, 12, 14, 16]
  }

  /**
    Every participant array lists nine distinct sub-cubes: first the axis
    sub-cube of the turning face, then four edge sub-cubes, then four
    corner sub-cubes; and the greyed sub-cubes are exactly its edges.
  */
  lemma ParticipantShape(t: Turn)
    ensures forall i, j :: 0 <= i < j < 9 ==> Participants(t)[i] != Participants(t)[j]
    ensures Participants(t)[0] == TurnFace(t)
    ensures forall i :: 1 <= i < 5 ==> 6 <= Participants(t)[i] < 18
    ensures forall i :: 5 <= i < 9 ==> 18 <= Participants(t)[i] < SubCubeCount
    ensures GreyedEdges(t) == Participants(t)[1..5]
  {
    ParticipantsLayout(t);
    GreyedAreEdges(t);
  }

  /** The axis sub-cube comes first, then the four edges, then the four corners. */
  lemma ParticipantsLayout(t: Turn)
    ensures Participants(t)[0] == TurnFace(t)
    ensures forall i :: 1 <= i < 5 ==> 6 <= Participants(t)[i] < 18
    ensures forall i :: 5 <= i < 9 ==> 18 <= Participants(t)[i] < SubCubeCount
  {}

  /** `rotate_X` greys exactly the edge sub-cubes of its array. */
  lemma GreyedAreEdges(t: Turn)
    ensures GreyedEdges(t) == Participants(t)[1..5]
  {}

  /**
    The participants of a turn are exactly the sub-cubes whose cell lies in
    the layer of the turning face: one step from the centre towards it.
  */
  lemma ParticipantsFormTheLayer(t: Turn)
    ensures forall s :: 0 <= s < SubCubeCount ==>
      (s in Participants(t) <==> Component(CellAt(s), TurnAxis(t)) == FaceSign(TurnFace(t)))
  {
    match t
    case R => LayersX();
    case L => LayersX();
    case U => LayersY();
    case D => LayersY();
    case F => LayersZ();
    case B => LayersZ();
  }

  lemma LayersX()
    ensures forall s :: 0 <= s < SubCubeCount ==>
      (s in Participants(R) <==> CellAt(s).x == 1) && (s in Participants(L) <==> CellAt(s).x == -1)
  {
    forall s | 0 <= s < SubCubeCount
      ensures (s in Participants(R) <==> CellAt(s).x == 1) && (s in Participants(L) <==> CellAt(s).x == -1)
    {
      SubCubeCases(s);
    }
  }

  lemma LayersY()
    ensures forall s :: 0 <= s < SubCubeCount ==>
      (s in Participants(U) <==> CellAt(s).y == 1) && (s in Participants(D) <==> CellAt(s).y == -1)
  {
    forall s | 0 <= s < SubCubeCount
      ensures (s in Participants(U) <==> CellAt(s).y == 1) && (s in Participants(D) <==> CellAt(s).y == -1)
    {
      SubCubeCases(s);
    }
  }

  lemma LayersZ()
    ensures forall s :: 0 <= s < SubCubeCount ==>
      (s in Participants(F) <==> CellAt(s).z == 1) && (s in Participants(B) <==> CellAt(s).z == -1)
  {
    forall s | 0 <= s < SubCubeCount
      ensures (s in Participants(F) <==> CellAt(s).z == 1) && (s in Participants(B) <==> CellAt(s).z == -1)
    {
      SubCubeCases(s);
    }
  }

  /**
    The participants of a turn are exactly the sub-cubes coloured on the
    turning face in the solved puzzle.
  */
  lemma ParticipantsAreTheVisibleSubCubes(t: Turn)
    ensures forall s :: 0 <= s < SubCubeCount ==> (s in Participants(t) <==> Visible(s, TurnFace(t)))
  {
    ParticipantsFormTheLayer(t);
    forall s | 0 <= s < SubCubeCount ensures s in Participants(t) <==> Visible(s, TurnFace(t)) {
      ColourMatchesPosition(s, TurnFace(t));
    }
  }

  /** Number of the six participant arrays that list sub-cube `s`. */
  function Occurrences(s: int): nat {
    (if s in Participants(R) then 1 else 0) + (if s in Participants(L) then 1 else 0)
    + (if s in Participants(U) then 1 else 0) + (if s in Participants(D) then 1 else 0)
    + (if s in Participants(F) then 1 else 0) + (if s in Participants(B) then 1 else 0)
  }

  /** The turn whose face is `f`. */
  function TurnAt(f: int): (t: Turn)
    requires 0 <= f < 6
    ensures TurnFace(t) == f
  {
    match f
    case 0 => L
    case 1 => R
    case 2 => D
    case 3 => U
    case 4 => B
    case 5 => F
  }

  /**
    Across the six arrays every axis sub-cube appears once, every edge
    twice and every corner three times: once per coloured face.
  */
  lemma ParticipationCounts()
    ensures forall s :: 0 <= s < SubCubeCount ==> Occurrences(s) == VisibleFaceCount(s)
    ensures forall s :: 0 <= s < SubCubeCount ==> Occurrences(s) == (if s < 6 then 1 else if s < 18 then 2 else 3)
  {
    ParticipantsAreTheVisibleSubCubes(R);
    ParticipantsAreTheVisibleSubCubes(L);
    ParticipantsAreTheVisibleSubCubes(U);
    ParticipantsAreTheVisibleSubCubes(D);
    ParticipantsAreTheVisibleSubCubes(F);
    ParticipantsAreTheVisibleSubCubes(B);
    VisibleFaceCounts();
  }

  /** A sequence without repeated elements has as many elements as its set. */
  lemma {:induction false} DistinctCardinality<T>(xs: seq<T>)
    requires forall i, j :: 0 <= i < j < |xs| ==> xs[i] != xs[j]
    ensures |set x | x in xs| == |xs|
  {
    if xs != [] {
      DistinctCardinality(xs[1..]);
      assert (set x | x in xs) == {xs[0]} + (set x | x in xs[1..]);
      assert xs[0] !in xs[1..];
    }
  }

  /** Each solved colour is on one face index only: colour `SolvedColor(f)` appears only on faces `f`. */
  lemma SolvedColourFace(f: int)
    requires 0 <= f < 6
    ensures forall s, g :: 0 <= s < SubCubeCount && 0 <= g < 6 && RefColor(s, g) == SolvedColor(f) ==> g == f
  {
    SolvedFacesCarryTheirFaceColour();
    forall s, g | 0 <= s < SubCubeCount && 0 <= g < 6 && RefColor(s, g) == SolvedColor(f) ensures g == f {
      FaceCases(f);
      FaceCases(g);
    }
  }

  /** Each solved colour White, Yellow, Green, Blue, Orange, Red is on exactly nine sub-cubes. */
  lemma ColourCounts(f: int)
    requires 0 <= f < 6
    ensures |set s | 0 <= s < SubCubeCount && RefColor(s, f) == SolvedColor(f)| == 9
  {
    var t := TurnAt(f);
    var ps := Participants(t);
    var coloured := set s | 0 <= s < SubCubeCount && RefColor(s, f) == SolvedColor(f);
    assert coloured == set x | x in ps by {
      SolvedFacesCarryTheirFaceColour();
      ParticipantsAreTheVisibleSubCubes(t);
      forall s | s in ps ensures s in coloured {
        ParticipantShape(t);
        var i :| 0 <= i < 9 && ps[i] == s;
      }
    }
    ParticipantShape(t);
    DistinctCardinality(ps);
  }

  /**
    The quarter turn of the grid a completed turn stands for: about the
    turning face's axis, clockwise as seen from that face, which is the
    sense of the per-tick step angle.
  */
  function QuarterTurn(t: Turn, p: Point3): Point3 {
    match t
    case R => Point3(p.x, p.z, -p.y)
    case L => Point3(p.x, -p.z, p.y)
    case U => Point3(-p.z, p.y, p.x)
    case D => Point3(p.z, p.y, -p.x)
    case F => Point3(p.y, -p.x, p.z)
    case B => Point3(-p.y, p.x, p.z)
  }

  /** The quarter turn in the opposite sense. */
  function QuarterTurnBack(t: Turn, p: Point3): Point3 {
    match t
    case R => Point3(p.x, -p.z, p.y)
    case L => Point3(p.x, p.z, -p.y)
    case U => Point3(p.z, p.y, -p.x)
    case D => Point3(-p.z, p.y, p.x)
    case F => Point3(-p.y, p.x, p.z)
    case B => Point3(p.y, -p.x, p.z)
  }

  /** `p` is the centre of the grid. */
  predicate AtCentre(p: Point3) {
    p.x == 0 && p.y == 0 && p.z == 0
  }

  /** `p` lies on coordinate axis `axis`: its other two coordinates are 0. */
  predicate OnAxis(p: Point3, axis: int)
    requires 0 <= axis < 3
  {
    if axis == 0 then p.y == 0 && p.z == 0
    else if axis == 1 then p.x == 0 && p.z == 0
    else p.x == 0 && p.y == 0
  }

  /**
    The quarter turn is a rotation about the turn's axis with the step
    angle's sense: it keeps the coordinate along the axis, and on a point
    of the plane through the centre it moves a quarter of the way round in
    the sense `Direction(t)` (the sine of its angle).
  */
  lemma QuarterTurnSense(t: Turn, p: Point3)
    ensures Component(QuarterTurn(t, p), TurnAxis(t)) == Component(p, TurnAxis(t))
    ensures TurnAxis(t) == 0 ==> QuarterTurn(t, p) == Point3(p.x, -Direction(t) * p.z, Direction(t) * p.y)
    ensures TurnAxis(t) == 1 ==> QuarterTurn(t, p) == Point3(Direction(t) * p.z, p.y, -Direction(t) * p.x)
    ensures TurnAxis(t) == 2 ==> QuarterTurn(t, p) == Point3(-Direction(t) * p.y, Direction(t) * p.x, p.z)
  {
    match t
    case R =>
    case L =>
    case U =>
    case D =>
    case F =>
    case B =>
  }

  /**
    A quarter turn keeps the grid, the centre, the coordinate along the
    axis and unit vectors, and the opposite quarter turn undoes it.
  */
  lemma QuarterTurnFacts(t: Turn, p: Point3)
    ensures InGrid(p) ==> InGrid(QuarterTurn(t, p)) && InGrid(QuarterTurnBack(t, p))
    ensures QuarterTurnBack(t, QuarterTurn(t, p)) == p && QuarterTurn(t, QuarterTurnBack(t, p)) == p
    ensures Component(QuarterTurnBack(t, p), TurnAxis(t)) == Component(p, TurnAxis(t))
    ensures !AtCentre(p) ==> !AtCentre(QuarterTurn(t, p)) && !AtCentre(QuarterTurnBack(t, p))
  {
    QuarterTurnKeepsGrid(t, p);
    QuarterTurnInverse(t, p);
    QuarterTurnOffCentre(t, p);
    QuarterTurnBackAxis(t, p);
  }

  /** The grid is carried onto itself both ways. */
  lemma QuarterTurnKeepsGrid(t: Turn, p: Point3)
    ensures InGrid(p) ==> InGrid(QuarterTurn(t, p)) && InGrid(QuarterTurnBack(t, p))
  {
    match t
    case R =>
    case L =>
    case U =>
    case D =>
    case F =>
    case B =>
  }

  /** The two senses undo each other. */
  lemma QuarterTurnInverse(t: Turn, p: Point3)
    ensures QuarterTurnBack(t, QuarterTurn(t, p)) == p && QuarterTurn(t, QuarterTurnBack(t, p)) == p
  {
    match t
    case R =>
    case L =>
    case U =>
    case D =>
    case F =>
    case B =>
  }

  /** Neither sense moves a point other than the centre onto the centre. */
  lemma QuarterTurnOffCentre(t: Turn, p: Point3)
    ensures !AtCentre(p) ==> !AtCentre(QuarterTurn(t, p)) && !AtCentre(QuarterTurnBack(t, p))
  {
    match t
    case R =>
    case L =>
    case U =>
    case D =>
    case F =>
    case B =>
  }

  /** The quarter turn back keeps the coordinate along the axis. */
  lemma QuarterTurnBackAxis(t: Turn, p: Point3)
    ensures Component(QuarterTurnBack(t, p), TurnAxis(t)) == Component(p, TurnAxis(t))
  {
    match t
    case R =>
    case L =>
    case U =>
    case D =>
    case F =>
    case B =>
  }

  /** Quarter turns carry unit vectors to unit vectors. */
  lemma QuarterTurnUnit(t: Turn, n: Point3)
    requires UnitVector(n)
    ensures UnitVector(QuarterTurn(t, n)) && UnitVector(QuarterTurnBack(t, n))
  {
    FaceOfUnit(n);
    QuarterTurnNormal(t, FaceWithNormal(n));
  }

  /** Quarter turns carry face normals to unit vectors. */
  lemma QuarterTurnNormal(t: Turn, f: int)
    requires 0 <= f < 6
    ensures UnitVector(QuarterTurn(t, Normal(f))) && UnitVector(QuarterTurnBack(t, Normal(f)))
  {
    match t {
      case R => NormalsTurnR(f);
      case L => NormalsTurnL(f);
      case U => NormalsTurnU(f);
      case D => NormalsTurnD(f);
      case F => NormalsTurnF(f);
      case B => NormalsTurnB(f);
    }
  }

  /** The face normals under each quarter turn in turn, one lemma per turn. */
  lemma NormalsTurnR(f: int)
    requires 0 <= f < 6
    ensures UnitVector(QuarterTurn(R, Normal(f))) && UnitVector(QuarterTurnBack(R, Normal(f)))
  {
    match f
    case 0 =>
    case 1 =>
    case 2 =>
    case 3 =>
    case 4 =>
    case 5 =>
  }

  lemma NormalsTurnL(f: int)
    requires 0 <= f < 6
    ensures UnitVector(QuarterTurn(L, Normal(f))) && UnitVector(QuarterTurnBack(L, Normal(f)))
  {
    match f
    case 0 =>
    case 1 =>
    case 2 =>
    case 3 =>
    case 4 =>
    case 5 =>
  }

  lemma NormalsTurnU(f: int)
    requires 0 <= f < 6
    ensures UnitVector(QuarterTurn(U, Normal(f))) && UnitVector(QuarterTurnBack(U, Normal(f)))
  {
    match f
    case 0 =>
    case 1 =>
    case 2 =>
    case 3 =>
    case 4 =>
    case 5 =>
  }

  lemma NormalsTurnD(f: int)
    requires 0 <= f < 6
    ensures UnitVector(QuarterTurn(D, Normal(f))) && UnitVector(QuarterTurnBack(D, Normal(f)))
  {
    match f
    case 0 =>
    case 1 =>
    case 2 =>
    case 3 =>
    case 4 =>
    case 5 =>
  }

  lemma NormalsTurnF(f: int)
    requires 0 <= f < 6
    ensures UnitVector(QuarterTurn(F, Normal(f))) && UnitVector(QuarterTurnBack(F, Normal(f)))
  {
    match f
    case 0 =>
    case 1 =>
    case 2 =>
    case 3 =>
    case 4 =>
    case 5 =>
  }

  lemma NormalsTurnB(f: int)
    requires 0 <= f < 6
    ensures UnitVector(QuarterTurn(B, Normal(f))) && UnitVector(QuarterTurnBack(B, Normal(f)))
  {
    match f
    case 0 =>
    case 1 =>
    case 2 =>
    case 3 =>
    case 4 =>
    case 5 =>
  }

  /**
    Four quarter turns are the identity, and only points on the axis are
    fixed by one or by two of them.
  */
  lemma QuarterTurnOrder(t: Turn, p: Point3)
    ensures QuarterTurnBack(t, QuarterTurnBack(t, QuarterTurnBack(t, QuarterTurnBack(t, p)))) == p
    ensures QuarterTurnBack(t, p) == p <==> OnAxis(p, TurnAxis(t))
    ensures QuarterTurnBack(t, QuarterTurnBack(t, p)) == p <==> OnAxis(p, TurnAxis(t))
  {
    match t
    case R =>
    case L =>
    case U =>
    case D =>
    case F =>
    case B =>
  }

  /** The face a sticker now on face `f` came from. */
  function FaceBefore(t: Turn, f: int): (g: int)
    requires 0 <= f < 6
    ensures 0 <= g < 6 && Normal(g) == QuarterTurnBack(t, Normal(f))
  {
    NormalIsUnit(f);
    QuarterTurnUnit(t, Normal(f));
    FaceOfUnit(QuarterTurnBack(t, Normal(f)));
    FaceWithNormal(QuarterTurnBack(t, Normal(f)))
  }

  /** One coloured face of one sub-cube: a (sub-cube, face) pair, the unit `copy_subCube_face_colors` moves. */
  datatype Slot = Slot(cube: int, face: int) {
    predicate Valid() {
      0 <= cube < SubCubeCount && 0 <= face < 6
    }
  }

  /** The slot whose sticker the quarter turn of `t` carries onto slot `sl`. */
  function SlotBefore(t: Turn, sl: Slot): (r: Slot)
    requires sl.Valid()
    ensures r.Valid()
  {
    CellLookup(sl.cube);
    CellsAreDistinct(sl.cube, sl.cube);
    QuarterTurnFacts(t, CellAt(sl.cube));
    Slot(SubCubeInCell(QuarterTurnBack(t, CellAt(sl.cube))), FaceBefore(t, sl.face))
  }

  /**
    One `copy_subCube_face_colors(dstCube, dstFace, srcCube, srcFace)` call:
    the six vertex colours of face `dstFace` of sub-cube `dstCube` are taken
    from the snapshot of face `srcFace` of sub-cube `srcCube`.
  */
  datatype Copy = Copy(dstCube: int, dstFace: int, srcCube: int, srcFace: int) {
    function Dst(): Slot {
      Slot(dstCube, dstFace)
    }

    function Src(): Slot {
      Slot(srcCube, srcFace)
    }
  }

  /** The sixteen colour copies each rotate function makes, in program order, once its turn completes. */
  function Recipe(t: Turn): (cs: seq<Copy>)
    ensures |cs| == 16
  {
    match t
    case R => [
      Copy(10, 1, 12, 1), Copy(11, 1, 13, 1), Copy(12, 1, 11, 1), Copy(13, 1, 10, 1),
      Copy(10, 2, 12, 4), Copy(11, 3, 13, 5), Copy(12, 4, 11, 3), Copy(13, 5, 10, 2),
      Copy(22, 2, 24, 4), Copy(22, 4, 24, 3), Copy(23, 2, 22, 4), Copy(23, 5, 22, 2),
      Copy(24, 3, 25, 5), Copy(24, 4, 25, 3), Copy(25, 3, 23, 5), Copy(25, 5, 23, 2)]
    case L => [
      Copy(6, 0, 9, 0), Copy(7, 0, 8, 0), Copy(8, 0, 6, 0), Copy(9, 0, 7, 0),
      Copy(6, 2, 9, 5), Copy(7, 3, 8, 4), Copy(8, 4, 6, 2), Copy(9, 5, 7, 3),
      Copy(18, 2, 19, 5), Copy(18, 4, 19, 2), Copy(19, 2, 21, 5), Copy(19, 5, 21, 3),
      Copy(20, 3, 18, 4), Copy(20, 4, 18, 2), Copy(21, 3, 20, 4), Copy(21, 5, 20, 3)]
    case U => [
      Copy(7, 3, 17, 3), Copy(11, 3, 16, 3), Copy(16, 3, 7, 3), Copy(17, 3, 11, 3),
      Copy(7, 0, 17, 5), Copy(11, 1, 16, 4), Copy(16, 4, 7, 0), Copy(17, 5, 11, 1),
      Copy(20, 0, 21, 5), Copy(20, 4, 21, 0), Copy(21, 0, 25, 5), Copy(21, 5, 25, 1),
      Copy(24, 1, 20, 4), Copy(24, 4, 20, 0), Copy(25, 1, 24, 4), Copy(25, 5, 24, 1)]
    case D => [
      Copy(6, 2, 14, 2), Copy(10, 2, 15, 2), Copy(14, 2, 10, 2), Copy(15, 2, 6, 2),
      Copy(6, 0, 14, 4), Copy(10, 1, 15, 5), Copy(14, 4, 10, 1), Copy(15, 5, 6, 0),
      Copy(18, 0, 22, 4), Copy(18, 4, 22, 1), Copy(19, 0, 18, 4), Copy(19, 5, 18, 0),
      Copy(22, 1, 23, 5), Copy(22, 4, 23, 1), Copy(23, 1, 19, 5), Copy(23, 5, 19, 0)]
    case F => [
      Copy(9, 5, 15, 5), Copy(13, 5, 17, 5), Copy(15, 5, 13, 5), Copy(17, 5, 9, 5),
      Copy(9, 0, 15, 2), Copy(13, 1, 17, 3), Copy(15, 2, 13, 1), Copy(17, 3, 9, 0),
      Copy(19, 0, 23, 2), Copy(19, 2, 23, 1), Copy(21, 0, 19, 2), Copy(21, 3, 19, 0),
      Copy(23, 1, 25, 3), Copy(23, 2, 25, 1), Copy(25, 1, 21, 3), Copy(25, 3, 21, 0)]
    case B => [
      Copy(8, 4, 16, 4), Copy(12, 4, 14, 4), Copy(14, 4, 8, 4), Copy(16, 4, 12, 4),
      Copy(8, 0, 16, 3), Copy(12, 1, 14, 2), Copy(14, 2, 8, 0), Copy(16, 3, 12, 1),
      Copy(18, 0, 20, 3), Copy(18, 2, 20, 0), Copy(20, 0, 24, 3), Copy(20, 3, 24, 1),
      Copy(22, 1, 18, 2), Copy(22, 2, 18, 0), Copy(24, 1, 22, 2), Copy(24, 3, 22, 1)]
  }

  /** Whether a sticker at grid cell `p` facing face `f` is on the outside of the puzzle. */
  predicate Exposed(p: Point3, f: int) {
    match f
    case 0 => p.x == -1
    case 1 => p.x == 1
    case 2 => p.y == -1
    case 3 => p.y == 1
    case 4 => p.z == -1
    case 5 => p.z == 1
    case _ => false
  }

  /** The table's colours say the same: a face is coloured exactly when it is on the outside. */
  lemma ExposedIsVisible(s: int, f: int)
    requires 0 <= s < SubCubeCount && 0 <= f < 6
    ensures Visible(s, f) <==> Exposed(CellAt(s), f)
  {
    ColourMatchesPosition(s, f);
    FaceCases(f);
  }

  /** A corner cell: off-centre along all three axes. */
  predicate CornerCell(p: Point3) {
    p.x != 0 && p.y != 0 && p.z != 0
  }

  /**
    A sticker a physical quarter turn carries somewhere else: an outside
    sticker of a cell in the turning layer other than the axis cell, which
    only spins in place.
  */
  predicate MovesAt(t: Turn, p: Point3, f: int) {
    Exposed(p, TurnFace(t)) && !OnAxis(p, TurnAxis(t)) && Exposed(p, f)
  }

  /**
    The stickers the program rewrites when a turn completes: every moving
    sticker except the four corner stickers on the turning face itself.
  */
  predicate RewrittenAt(t: Turn, p: Point3, f: int) {
    MovesAt(t, p, f) && !(CornerCell(p) && f == TurnFace(t))
  }

  /** The slots the program's recipe rewrites, or with the four corner copies added, every moving slot. */
  predicate Written(v: Variant, t: Turn, sl: Slot) {
    sl.Valid() && (if v == AsWritten then RewrittenAt(t, CellAt(sl.cube), sl.face) else MovesAt(t, CellAt(sl.cube), sl.face))
  }

  /** Being written is carried along by the quarter turn: the slot a written slot's sticker comes from is written too. */
  lemma WrittenBefore(v: Variant, t: Turn, sl: Slot)
    requires Written(v, t, sl)
    ensures Written(v, t, SlotBefore(t, sl))
  {
    RotatedStickers(t, CellAt(sl.cube), sl.face);
  }

  /** Four quarter turns back return every slot to itself. */
  lemma SlotBeforeOrder(t: Turn, sl: Slot)
    requires sl.Valid()
    ensures SlotBefore(t, SlotBefore(t, SlotBefore(t, SlotBefore(t, sl)))) == sl
  {
    var s4 := SlotBefore(t, SlotBefore(t, SlotBefore(t, SlotBefore(t, sl))));
    QuarterTurnOrder(t, CellAt(sl.cube));
    CellsAreDistinct(sl.cube, s4.cube);
    FaceCycle(t, sl.face);
  }

  /** A moving slot is carried somewhere else by one quarter turn, and by two. */
  lemma MovingSlotsMove(t: Turn, sl: Slot)
    requires sl.Valid() && MovesAt(t, CellAt(sl.cube), sl.face)
    ensures SlotBefore(t, sl) != sl && SlotBefore(t, SlotBefore(t, sl)) != sl
  {
    QuarterTurnOrder(t, CellAt(sl.cube));
  }

  /** The scalar product of two grid vectors. */
  function Dot(p: Point3, q: Point3): int {
    p.x * q.x + p.y * q.y + p.z * q.z
  }

  /** A sticker faces outwards on face `f` exactly when its cell reaches one step along the face's normal. */
  lemma ExposedIsDot(p: Point3, f: int)
    requires 0 <= f < 6
    ensures Exposed(p, f) <==> Dot(p, Normal(f)) == 1
  {
    FaceCases(f);
  }

  /** The quarter turn back is a rotation: it keeps scalar products. */
  lemma QuarterTurnBackKeepsDot(t: Turn, p: Point3, q: Point3)
    ensures Dot(QuarterTurnBack(t, p), QuarterTurnBack(t, q)) == Dot(p, q)
  {
    match t
    case R =>
    case L =>
    case U =>
    case D =>
    case F =>
    case B =>
  }

  /** A sticker outside on face `f` came from a sticker outside on face `FaceBefore(t, f)`. */
  lemma ExposureTurns(t: Turn, p: Point3, f: int)
    requires 0 <= f < 6
    ensures Exposed(QuarterTurnBack(t, p), FaceBefore(t, f)) <==> Exposed(p, f)
  {
    var g := FaceBefore(t, f);
    ExposedIsDot(p, f);
    ExposedIsDot(QuarterTurnBack(t, p), g);
    QuarterTurnBackKeepsDot(t, p, Normal(f));
  }

  /** Pointwise, the quarter turn back keeps corner cells corner cells. */
  lemma CornerCellsTurn(t: Turn, p: Point3)
    ensures CornerCell(QuarterTurnBack(t, p)) <==> CornerCell(p)
  {
    match t
    case R =>
    case L =>
    case U =>
    case D =>
    case F =>
    case B =>
  }

  /** Pointwise, it keeps the turning layer. */
  lemma LayerTurns(t: Turn, p: Point3)
    ensures Exposed(QuarterTurnBack(t, p), TurnFace(t)) <==> Exposed(p, TurnFace(t))
  {
    match t
    case R =>
    case L =>
    case U =>
    case D =>
    case F =>
    case B =>
  }

  /** Pointwise, and it keeps the axis. */
  lemma AxisTurns(t: Turn, p: Point3)
    ensures OnAxis(QuarterTurnBack(t, p), TurnAxis(t)) <==> OnAxis(p, TurnAxis(t))
  {
    match t
    case R =>
    case L =>
    case U =>
    case D =>
    case F =>
    case B =>
  }

  /** The normal of the turning face lies on the turn's axis. */
  lemma TurnNormalOnAxis(t: Turn)
    ensures OnAxis(Normal(TurnFace(t)), TurnAxis(t))
  {
    match t
    case R =>
    case L =>
    case U =>
    case D =>
    case F =>
    case B =>
  }

  /** Different faces come from different faces. */
  lemma FaceBeforeInjective(t: Turn, f: int, h: int)
    requires 0 <= f < 6 && 0 <= h < 6
    ensures FaceBefore(t, f) == FaceBefore(t, h) ==> f == h
  {
    if FaceBefore(t, f) == FaceBefore(t, h) {
      QuarterTurnFacts(t, Normal(f));
      QuarterTurnFacts(t, Normal(h));
      NormalIsUnit(f);
      NormalIsUnit(h);
    }
  }

  /** The turning face stays where it is. */
  lemma AxisFaceFixed(t: Turn)
    ensures FaceBefore(t, TurnFace(t)) == TurnFace(t)
  {
    var h := TurnFace(t);
    TurnNormalOnAxis(t);
    QuarterTurnOrder(t, Normal(h));
    NormalIsUnit(h);
    NormalIsUnit(FaceBefore(t, h));
  }

  /** Only the turning face comes from the turning face. */
  lemma TurnFaceStays(t: Turn, f: int)
    requires 0 <= f < 6
    ensures FaceBefore(t, f) == TurnFace(t) <==> f == TurnFace(t)
  {
    AxisFaceFixed(t);
    FaceBeforeInjective(t, f, TurnFace(t));
  }

  /** Exposure, corners and the layer, pointwise: the quarter turn back carries each along. */
  lemma RotatedStickers(t: Turn, p: Point3, f: int)
    requires 0 <= f < 6
    ensures Exposed(QuarterTurnBack(t, p), FaceBefore(t, f)) <==> Exposed(p, f)
    ensures CornerCell(QuarterTurnBack(t, p)) <==> CornerCell(p)
    ensures Exposed(QuarterTurnBack(t, p), TurnFace(t)) <==> Exposed(p, TurnFace(t))
    ensures OnAxis(QuarterTurnBack(t, p), TurnAxis(t)) <==> OnAxis(p, TurnAxis(t))
    ensures FaceBefore(t, f) == TurnFace(t) <==> f == TurnFace(t)
  {
    ExposureTurns(t, p, f);
    CornerCellsTurn(t, p);
    LayerTurns(t, p);
    AxisTurns(t, p);
    TurnFaceStays(t, f);
  }

  /** Four quarter turns back bring every face to itself. */
  lemma FaceCycle(t: Turn, f: int)
    requires 0 <= f < 6
    ensures FaceBefore(t, FaceBefore(t, FaceBefore(t, FaceBefore(t, f)))) == f
  {
    var f1 := FaceBefore(t, f);
    var f2 := FaceBefore(t, f1);
    var f3 := FaceBefore(t, f2);
    var f4 := FaceBefore(t, f3);
    QuarterTurnOrder(t, Normal(f));
    assert Normal(f4) == Normal(f);
    NormalIsUnit(f);
    NormalIsUnit(f4);
  }

  /**
    The centre of the sticker on the side of cell `p` facing `n`, in
    half-cell units: twice the cell plus the normal.
  */
  function Sticker(p: Point3, n: Point3): Point3 {
    Point3(2 * p.x + n.x, 2 * p.y + n.y, 2 * p.z + n.z)
  }

  /** The centre of the sticker on face `face` of sub-cube `cube`. */
  function StickerPoint(cube: int, face: int): Point3
    requires 0 <= cube < SubCubeCount && 0 <= face < 6
  {
    var c, n := CellAt(cube), Normal(face);
    Point3(2 * c.x + n.x, 2 * c.y + n.y, 2 * c.z + n.z)
  }

  /** The quarter turn back is linear, so it carries a sticker's centre to the centre of the turned sticker. */
  lemma QuarterTurnBackSticker(t: Turn, p: Point3, n: Point3)
    ensures QuarterTurnBack(t, Sticker(p, n)) == Sticker(QuarterTurnBack(t, p), QuarterTurnBack(t, n))
  {
    match t
    case R =>
    case L =>
    case U =>
    case D =>
    case F =>
    case B =>
  }

  /** An outside sticker is determined by its centre: no two outside stickers share one. */
  lemma OutsideStickersAreDistinct(p: Point3, f: int, q: Point3, g: int)
    requires InGrid(p) && InGrid(q) && 0 <= f < 6 && 0 <= g < 6
    requires Exposed(p, f) && Exposed(q, g)
    ensures Sticker(p, Normal(f)) == Sticker(q, Normal(g)) <==> p == q && f == g
  {
    FaceCases(f);
    FaceCases(g);
  }

  /**
    A copy follows the quarter turn: it reads an outside sticker and writes
    it where the quarter turn carries that sticker's centre.
  */
  predicate CopyRotates(t: Turn, c: Copy) {
    c.Src().Valid() && c.Dst().Valid() && Exposed(CellAt(c.srcCube), c.srcFace)
    && StickerPoint(c.dstCube, c.dstFace) == QuarterTurn(t, StickerPoint(c.srcCube, c.srcFace))
  }

  /** The copy list variant: the program's recipe, or the recipe with the missing corner copies added. */
  datatype Variant = AsWritten | Corrected

  /** The four copies the recipe leaves out: the corner stickers of the turning face, cycled like the corners. */
  function CornerCopies(t: Turn): (cs: seq<Copy>)
    ensures |cs| == 4
  {
    match t
    case R => [Copy(22, 1, 24, 1), Copy(23, 1, 22, 1), Copy(24, 1, 25, 1), Copy(25, 1, 23, 1)]
    case L => [Copy(18, 0, 19, 0), Copy(19, 0, 21, 0), Copy(20, 0, 18, 0), Copy(21, 0, 20, 0)]
    case U => [Copy(20, 3, 21, 3), Copy(21, 3, 25, 3), Copy(24, 3, 20, 3), Copy(25, 3, 24, 3)]
    case D => [Copy(18, 2, 22, 2), Copy(19, 2, 18, 2), Copy(22, 2, 23, 2), Copy(23, 2, 19, 2)]
    case F => [Copy(19, 5, 23, 5), Copy(21, 5, 19, 5), Copy(23, 5, 25, 5), Copy(25, 5, 21, 5)]
    case B => [Copy(18, 4, 20, 4), Copy(20, 4, 24, 4), Copy(22, 4, 18, 4), Copy(24, 4, 22, 4)]
  }

  /** The copies a completed turn makes. */
  function Copies(v: Variant, t: Turn): (cs: seq<Copy>)
    ensures |cs| == (if v == AsWritten then 16 else 20)
    ensures forall i :: 0 <= i < |cs| ==> cs[i].Dst().Valid() && cs[i].Src().Valid()
  {
    RecipeIsValid(t);
    CornersAreValid(t);
    if v == AsWritten then Recipe(t)
    else
      var cs := Recipe(t) + CornerCopies(t);
      assert forall i :: 16 <= i < 20 ==> cs[i] == CornerCopies(t)[i - 16];
      cs
  }

  /** Every copy of the tables names a sub-cube 0..25 and a face 0..5 on both ends. */
  lemma RecipeIsValid(t: Turn)
    ensures forall i :: 0 <= i < 16 ==> Recipe(t)[i].Dst().Valid() && Recipe(t)[i].Src().Valid()
  {
    match t
    case R => RecipeRotatesR();
    case L => RecipeRotatesL();
    case U => RecipeRotatesU();
    case D => RecipeRotatesD();
    case F => RecipeRotatesF();
    case B => RecipeRotatesB();
  }

  lemma CornersAreValid(t: Turn)
    ensures forall i :: 0 <= i < 4 ==> CornerCopies(t)[i].Dst().Valid() && CornerCopies(t)[i].Src().Valid()
  {
    match t
    case R =>
    case L =>
    case U =>
    case D =>
    case F =>
    case B =>
  }

  /** No two copies of `cs` write the same slot. */
  predicate DistinctDsts(cs: seq<Copy>) {
    forall i, j :: 0 <= i < j < |cs| ==> cs[i].Dst() != cs[j].Dst()
  }

  /** Copy `i` is the last of `cs` that writes slot `d`. */
  predicate LastWriter(cs: seq<Copy>, i: int, d: Slot) {
    0 <= i < |cs| && cs[i].Dst() == d && forall j :: i < j < |cs| ==> cs[j].Dst() != d
  }

  /** The index of the last copy of `cs` that writes slot `d`, or -1 when none does. */
  function LastWrite(cs: seq<Copy>, d: Slot): (i: int)
    ensures -1 <= i < |cs|
    ensures i == -1 <==> forall j :: 0 <= j < |cs| ==> cs[j].Dst() != d
    ensures i >= 0 ==> LastWriter(cs, i, d)
  {
    if |cs| == 0 then -1
    else if cs[|cs| - 1].Dst() == d then |cs| - 1
    else
      var front := cs[..|cs| - 1];
      assert forall j :: 0 <= j < |front| ==> front[j] == cs[j];
      LastWrite(front, d)
  }

  /**
    The snapshot slot whose colours end up on slot `d` after the copies `cs`
    run in order: the source of the last copy writing `d`, or `None` when no
    copy writes it.
  */
  function SourceOf(cs: seq<Copy>, d: Slot): (r: Option<Slot>)
    ensures r.None? <==> forall i :: 0 <= i < |cs| ==> cs[i].Dst() != d
    ensures r.Some? ==> exists i :: LastWriter(cs, i, d) && cs[i].Src() == r.value
  {
    var i := LastWrite(cs, d);
    if i < 0 then None else Some(cs[i].Src())
  }

  /** With distinct destinations, the copy writing a slot is its source, whatever the order. */
  lemma SourceOfDistinct(cs: seq<Copy>, k: int)
    requires DistinctDsts(cs) && 0 <= k < |cs|
    ensures SourceOf(cs, cs[k].Dst()) == Some(cs[k].Src())
  {}

  /** `SlotBefore` is the quarter turn back on sticker centres, and it keeps stickers outside. */
  lemma SlotBeforeSticker(t: Turn, sl: Slot)
    requires sl.Valid()
    ensures StickerPoint(SlotBefore(t, sl).cube, SlotBefore(t, sl).face) == QuarterTurnBack(t, StickerPoint(sl.cube, sl.face))
    ensures Exposed(CellAt(SlotBefore(t, sl).cube), SlotBefore(t, sl).face) <==> Exposed(CellAt(sl.cube), sl.face)
  {
    var p, f := CellAt(sl.cube), sl.face;
    var b := SlotBefore(t, sl);
    assert CellAt(b.cube) == QuarterTurnBack(t, p);
    assert Normal(b.face) == QuarterTurnBack(t, Normal(f));
    QuarterTurnBackSticker(t, p, Normal(f));
    ExposureTurns(t, p, f);
  }

  /** Two outside stickers with the same centre are the same slot. */
  lemma SameStickerSameSlot(a: Slot, b: Slot)
    requires a.Valid() && b.Valid()
    requires Exposed(CellAt(a.cube), a.face) && Exposed(CellAt(b.cube), b.face)
    requires StickerPoint(a.cube, a.face) == StickerPoint(b.cube, b.face)
    ensures a == b
  {
    CellLookup(a.cube);
    CellLookup(b.cube);
    OutsideStickersAreDistinct(CellAt(a.cube), a.face, CellAt(b.cube), b.face);
    CellsAreDistinct(a.cube, b.cube);
  }

  /** A copy that follows the quarter turn onto an outside sticker reads exactly the slot `SlotBefore` names. */
  lemma CopyIsSlotMap(t: Turn, c: Copy)
    requires CopyRotates(t, c) && Exposed(CellAt(c.dstCube), c.dstFace)
    ensures SlotBefore(t, c.Dst()) == c.Src()
  {
    var b := SlotBefore(t, c.Dst());
    SlotBeforeSticker(t, c.Dst());
    QuarterTurnFacts(t, StickerPoint(c.srcCube, c.srcFace));
    SameStickerSameSlot(b, c.Src());
  }

  /**
    Every copy of the recipe, and of the corrected recipe, follows the
    quarter turn and writes a slot of the variant; no slot is written twice;
    and every slot of the variant is written.
  */
  lemma CopiesFollowTheTurn(v: Variant, t: Turn)
    ensures forall i :: 0 <= i < |Copies(v, t)| ==> CopyRotates(t, Copies(v, t)[i]) && Written(v, t, Copies(v, t)[i].Dst())
    ensures DistinctDsts(Copies(v, t))
    ensures forall sl :: Written(v, t, sl) ==> exists k :: 0 <= k < |Copies(v, t)| && Copies(v, t)[k].Dst() == sl
  {
    CopiesRotate(v, t);
    CopiesDistinct(v, t);
    CopiesCover(v, t);
  }

  /** Every copy follows the quarter turn and writes a slot of the variant. */
  lemma CopiesRotate(v: Variant, t: Turn)
    ensures forall i :: 0 <= i < |Copies(v, t)| ==> CopyRotates(t, Copies(v, t)[i]) && Written(v, t, Copies(v, t)[i].Dst())
  {
    RecipeFacts(t);
    CornerFacts(t);
    if v == Corrected {
      var cs, ks := Copies(v, t), CornerCopies(t);
      forall i | 16 <= i < |cs| ensures CopyRotates(t, cs[i]) && Written(v, t, cs[i].Dst()) {
        assert cs[i] == ks[i - 16];
      }
    }
  }

  /** No slot is written twice. */
  lemma CopiesDistinct(v: Variant, t: Turn)
    ensures DistinctDsts(Copies(v, t))
  {
    RecipeFacts(t);
    CornerFacts(t);
    if v == Corrected {
      var cs, ks := Copies(v, t), CornerCopies(t);
      forall i, j | 0 <= i < j < |cs| && 16 <= j ensures cs[i].Dst() != cs[j].Dst() {
        assert cs[j] == ks[j - 16];
        if i >= 16 {
          assert cs[i] == ks[i - 16];
        }
      }
    }
  }

  /** Every slot of the variant is written. */
  lemma CopiesCover(v: Variant, t: Turn)
    ensures forall sl :: Written(v, t, sl) ==> exists k :: 0 <= k < |Copies(v, t)| && Copies(v, t)[k].Dst() == sl
  {
    var cs, rs := Copies(v, t), Recipe(t);
    RecipeFacts(t);
    if v == AsWritten {
      forall sl | Written(v, t, sl) ensures exists k :: 0 <= k < |cs| && cs[k].Dst() == sl {
        var k :| 0 <= k < 16 && rs[k].Dst() == sl;
        assert cs[k] == rs[k];
      }
    } else {
      CornerFacts(t);
      var ks := CornerCopies(t);
      forall sl | Written(v, t, sl) ensures exists k :: 0 <= k < |cs| && cs[k].Dst() == sl {
        if Written(AsWritten, t, sl) {
          var k :| 0 <= k < 16 && rs[k].Dst() == sl;
          assert cs[k] == rs[k];
        } else {
          var k :| 0 <= k < 4 && ks[k].Dst() == sl;
          assert cs[k + 16] == ks[k];
        }
      }
    }
  }

  /**
    What a completed turn leaves on slot `sl`, read through the copies: the
    sticker the quarter turn carries there when `sl` is written, and no copy
    otherwise.
  */
  lemma SourceOfCopies(v: Variant, t: Turn, sl: Slot)
    requires sl.Valid()
    ensures SourceOf(Copies(v, t), sl) == if Written(v, t, sl) then Some(SlotBefore(t, sl)) else None
  {
    var cs := Copies(v, t);
    CopiesFollowTheTurn(v, t);
    if Written(v, t, sl) {
      var k :| 0 <= k < |cs| && cs[k].Dst() == sl;
      SourceOfDistinct(cs, k);
      CopyIsSlotMap(t, cs[k]);
    }
  }

  /**
    A copy list carries out the quarter turn of `t` on the slots variant `v`
    writes: every copy follows the turn and writes such a slot, no slot is
    written twice, and each is written.
  */
  ghost predicate Realizes(v: Variant, t: Turn, cs: seq<Copy>) {
    (forall i :: 0 <= i < |cs| ==> CopyRotates(t, cs[i]) && Written(v, t, cs[i].Dst()))
    && DistinctDsts(cs)
    && forall sl :: Written(v, t, sl) ==> exists k :: 0 <= k < |cs| && cs[k].Dst() == sl
  }

  /** The sources of the copies are the destinations, each once: the copies permute the written slots. */
  lemma CopiesPermute(v: Variant, t: Turn)
    ensures multiset(Sources(Copies(v, t))) == multiset(Destinations(Copies(v, t)))
  {
    var cs := Copies(v, t);
    CopiesFollowTheTurn(v, t);
    SourcesAreDestinations(v, t, cs);
    SourcesAreDistinct(v, t, cs);
    DestinationsAreSources(v, t, cs);
    DistinctSameElements(Sources(cs), Destinations(cs));
  }

  lemma SourcesAreDestinations(v: Variant, t: Turn, cs: seq<Copy>)
    requires Realizes(v, t, cs)
    ensures forall x :: x in Sources(cs) ==> x in Destinations(cs)
  {
    var srcs, dsts := Sources(cs), Destinations(cs);
    forall x | x in srcs ensures x in dsts {
      var i :| 0 <= i < |cs| && srcs[i] == x;
      var k := CopyWriting(v, t, cs, i);
      assert dsts[k] == x;
    }
  }

  /** The copy of a list carrying out the turn that writes the slot copy `i` reads. */
  lemma CopyWriting(v: Variant, t: Turn, cs: seq<Copy>, i: int) returns (k: int)
    requires Realizes(v, t, cs) && 0 <= i < |cs|
    ensures 0 <= k < |cs| && cs[k].Dst() == cs[i].Src()
  {
    CopyIsSlotMap(t, cs[i]);
    WrittenBefore(v, t, cs[i].Dst());
    k :| 0 <= k < |cs| && cs[k].Dst() == cs[i].Src();
  }

  lemma SourcesAreDistinct(v: Variant, t: Turn, cs: seq<Copy>)
    requires Realizes(v, t, cs)
    ensures forall i, j :: 0 <= i < j < |Sources(cs)| ==> Sources(cs)[i] != Sources(cs)[j]
  {
    forall i, j | 0 <= i < j < |cs| ensures cs[i].Src() != cs[j].Src() {
      SourcesDiffer(t, cs[i], cs[j]);
    }
  }

  /** Two copies that follow the quarter turn onto different outside stickers read different slots. */
  lemma SourcesDiffer(t: Turn, c: Copy, d: Copy)
    requires CopyRotates(t, c) && Exposed(CellAt(c.dstCube), c.dstFace)
    requires CopyRotates(t, d) && Exposed(CellAt(d.dstCube), d.dstFace)
    requires c.Dst() != d.Dst()
    ensures c.Src() != d.Src()
  {
    CopyIsSlotMap(t, c);
    CopyIsSlotMap(t, d);
    if c.Src() == d.Src() {
      SlotBeforeInjective(t, c.Dst(), d.Dst());
    }
  }

  /** Different slots are carried from different slots. */
  lemma SlotBeforeInjective(t: Turn, a: Slot, b: Slot)
    requires a.Valid() && b.Valid() && SlotBefore(t, a) == SlotBefore(t, b)
    ensures a == b
  {
    SlotBeforeOrder(t, a);
    SlotBeforeOrder(t, b);
  }

  lemma DestinationsAreSources(v: Variant, t: Turn, cs: seq<Copy>)
    requires Realizes(v, t, cs)
    ensures forall x :: x in Destinations(cs) ==> x in Sources(cs)
  {
    var srcs, dsts := Sources(cs), Destinations(cs);
    forall x | x in dsts ensures x in srcs {
      var k :| 0 <= k < |cs| && dsts[k] == x;
      var m := CopyReading(v, t, cs, x);
      assert srcs[m] == x;
    }
  }

  /** The copy of a list carrying out the turn that reads written slot `x`. */
  lemma CopyReading(v: Variant, t: Turn, cs: seq<Copy>, x: Slot) returns (m: int)
    requires Realizes(v, t, cs) && Written(v, t, x)
    ensures 0 <= m < |cs| && cs[m].Src() == x
  {
    var y := ThreeBack(v, t, x);
    m :| 0 <= m < |cs| && cs[m].Dst() == y;
    CopyIsSlotMap(t, cs[m]);
  }

  /** Three quarter turns back from a written slot reach the written slot whose sticker goes to it. */
  lemma ThreeBack(v: Variant, t: Turn, x: Slot) returns (y: Slot)
    requires Written(v, t, x)
    ensures Written(v, t, y) && SlotBefore(t, y) == x
  {
    var y1 := SlotBefore(t, x);
    var y2 := SlotBefore(t, y1);
    y := SlotBefore(t, y2);
    WrittenBefore(v, t, x);
    WrittenBefore(v, t, y1);
    WrittenBefore(v, t, y2);
    SlotBeforeOrder(t, x);
  }

  function Sources(cs: seq<Copy>): (r: seq<Slot>)
    ensures |r| == |cs| && forall i :: 0 <= i < |cs| ==> r[i] == cs[i].Src()
  {
    seq(|cs|, i requires 0 <= i < |cs| => cs[i].Src())
  }

  function Destinations(cs: seq<Copy>): (r: seq<Slot>)
    ensures |r| == |cs| && forall i :: 0 <= i < |cs| ==> r[i] == cs[i].Dst()
  {
    seq(|cs|, i requires 0 <= i < |cs| => cs[i].Dst())
  }

  /** In a sequence without repetitions every element occurs once. */
  lemma {:induction false} DistinctCounts<T>(xs: seq<T>, x: T)
    requires forall i, j :: 0 <= i < j < |xs| ==> xs[i] != xs[j]
    ensures multiset(xs)[x] == if x in xs then 1 else 0
  {
    if xs != [] {
      DistinctCounts(xs[1..], x);
      assert xs == [xs[0]] + xs[1..];
      assert xs[0] !in xs[1..] by {
        forall i | 0 <= i < |xs[1..]| ensures xs[1..][i] != xs[0] {
          assert xs[1..][i] == xs[i + 1];
        }
      }
    }
  }

  /** Two repetition-free sequences with the same elements are permutations of each other. */
  lemma DistinctSameElements<T>(xs: seq<T>, ys: seq<T>)
    requires forall i, j :: 0 <= i < j < |xs| ==> xs[i] != xs[j]
    requires forall i, j :: 0 <= i < j < |ys| ==> ys[i] != ys[j]
    requires forall x :: x in xs <==> x in ys
    ensures multiset(xs) == multiset(ys)
  {
    forall x ensures multiset(xs)[x] == multiset(ys)[x] {
      DistinctCounts(xs, x);
      DistinctCounts(ys, x);
    }
  }

  /**
    Every copy of the program's recipe follows the quarter turn and writes
    a rewritten slot; no slot is written twice; every rewritten slot is
    written.
  */
  lemma RecipeFacts(t: Turn)
    ensures forall i :: 0 <= i < 16 ==> CopyRotates(t, Recipe(t)[i])
    ensures forall i :: 0 <= i < 16 ==> Written(AsWritten, t, Recipe(t)[i].Dst())
    ensures DistinctDsts(Recipe(t))
    ensures forall sl :: Written(AsWritten, t, sl) ==> exists k :: 0 <= k < 16 && Recipe(t)[k].Dst() == sl
  {
    match t {
      case R => RecipeRotatesR(); RecipeWritesR(); RecipeDistinctR(); RecipeCoversR();
      case L => RecipeRotatesL(); RecipeWritesL(); RecipeDistinctL(); RecipeCoversL();
      case U => RecipeRotatesU(); RecipeWritesU(); RecipeDistinctU(); RecipeCoversU();
      case D => RecipeRotatesD(); RecipeWritesD(); RecipeDistinctD(); RecipeCoversD();
      case F => RecipeRotatesF(); RecipeWritesF(); RecipeDistinctF(); RecipeCoversF();
      case B => RecipeRotatesB(); RecipeWritesB(); RecipeDistinctB(); RecipeCoversB();
    }
    DistinctInHalves(Recipe(t));
  }

  /** Sixteen copies write distinct slots when each half does and no slot is written in both. */
  lemma DistinctInHalves(cs: seq<Copy>)
    requires |cs| == 16
    requires forall i, j :: 0 <= i < j < 8 ==> cs[i].Dst() != cs[j].Dst()
    requires forall i, j :: 0 <= i < 8 <= j < 16 ==> cs[i].Dst() != cs[j].Dst()
    requires forall i, j :: 8 <= i < j < 16 ==> cs[i].Dst() != cs[j].Dst()
    ensures DistinctDsts(cs)
  {}

  /**
    The four corner copies follow the quarter turn and write exactly the
    moving slots the recipe leaves out, each once.
  */
  lemma CornerFacts(t: Turn)
    ensures forall i :: 0 <= i < 4 ==> CopyRotates(t, CornerCopies(t)[i])
    ensures forall i :: 0 <= i < 4 ==> Written(Corrected, t, CornerCopies(t)[i].Dst()) && !Written(AsWritten, t, CornerCopies(t)[i].Dst())
    ensures DistinctDsts(CornerCopies(t))
    ensures forall sl :: Written(Corrected, t, sl) && !Written(AsWritten, t, sl) ==> exists k :: 0 <= k < 4 && CornerCopies(t)[k].Dst() == sl
  {
    match t
    case R => CornersRotateR(); CornersWriteR(); CornersDistinctR(); CornersCoverR();
    case L => CornersRotateL(); CornersWriteL(); CornersDistinctL(); CornersCoverL();
    case U => CornersRotateU(); CornersWriteU(); CornersDistinctU(); CornersCoverU();
    case D => CornersRotateD(); CornersWriteD(); CornersDistinctD(); CornersCoverD();
    case F => CornersRotateF(); CornersWriteF(); CornersDistinctF(); CornersCoverF();
    case B => CornersRotateB(); CornersWriteB(); CornersDistinctB(); CornersCoverB();
  }

  lemma RecipeRotatesR()
    ensures forall i :: 0 <= i < 16 ==> CopyRotates(R, Recipe(R)[i])
  {
    RecipeRotatesR0();
    RecipeRotatesR1();
  }

  lemma RecipeRotatesR0()
    ensures forall i :: 0 <= i < 8 ==> CopyRotates(R, Recipe(R)[i])
  {}

  lemma RecipeRotatesR1()
    ensures forall i :: 8 <= i < 16 ==> CopyRotates(R, Recipe(R)[i])
  {}

  lemma RecipeWritesR()
    ensures forall i :: 0 <= i < 16 ==> Written(AsWritten, R, Recipe(R)[i].Dst())
  {}

  lemma RecipeDistinctR()
    ensures forall i, j :: 0 <= i < j < 8 ==> Recipe(R)[i].Dst() != Recipe(R)[j].Dst()
    ensures forall i, j :: 0 <= i < 8 <= j < 16 ==> Recipe(R)[i].Dst() != Recipe(R)[j].Dst()
    ensures forall i, j :: 8 <= i < j < 16 ==> Recipe(R)[i].Dst() != Recipe(R)[j].Dst()
  {}

  lemma RecipeCoversR()
    ensures forall sl :: Written(AsWritten, R, sl) ==> exists k :: 0 <= k < 16 && Recipe(R)[k].Dst() == sl
  {
    var cs := Recipe(R);
    assert cs[0].Dst() == Slot(10, 1) && cs[1].Dst() == Slot(11, 1) && cs[2].Dst() == Slot(12, 1) && cs[3].Dst() == Slot(13, 1);
    assert cs[4].Dst() == Slot(10, 2) && cs[5].Dst() == Slot(11, 3) && cs[6].Dst() == Slot(12, 4) && cs[7].Dst() == Slot(13, 5);
    assert cs[8].Dst() == Slot(22, 2) && cs[9].Dst() == Slot(22, 4) && cs[10].Dst() == Slot(23, 2) && cs[11].Dst() == Slot(23, 5);
    assert cs[12].Dst() == Slot(24, 3) && cs[13].Dst() == Slot(24, 4) && cs[14].Dst() == Slot(25, 3) && cs[15].Dst() == Slot(25, 5);
  }

  lemma CornersRotateR()
    ensures forall i :: 0 <= i < 4 ==> CopyRotates(R, CornerCopies(R)[i])
  {
    CornersRotateR0();
    CornersRotateR1();
  }

  lemma CornersRotateR0()
    ensures forall i :: 0 <= i < 2 ==> CopyRotates(R, CornerCopies(R)[i])
  {}

  lemma CornersRotateR1()
    ensures forall i :: 2 <= i < 4 ==> CopyRotates(R, CornerCopies(R)[i])
  {}

  lemma CornersWriteR()
    ensures forall i :: 0 <= i < 4 ==> Written(Corrected, R, CornerCopies(R)[i].Dst()) && !Written(AsWritten, R, CornerCopies(R)[i].Dst())
  {}

  lemma CornersDistinctR()
    ensures DistinctDsts(CornerCopies(R))
  {}

  lemma CornersCoverR()
    ensures forall sl :: Written(Corrected, R, sl) && !Written(AsWritten, R, sl) ==> exists k :: 0 <= k < 4 && CornerCopies(R)[k].Dst() == sl
  {
    var ks := CornerCopies(R);
    assert ks[0].Dst() == Slot(22, 1) && ks[1].Dst() == Slot(23, 1) && ks[2].Dst() == Slot(24, 1) && ks[3].Dst() == Slot(25, 1);
  }

  lemma RecipeRotatesL()
    ensures forall i :: 0 <= i < 16 ==> CopyRotates(L, Recipe(L)[i])
  {
    RecipeRotatesL0();
    RecipeRotatesL1();
  }

  lemma RecipeRotatesL0()
    ensures forall i :: 0 <= i < 8 ==> CopyRotates(L, Recipe(L)[i])
  {}

  lemma RecipeRotatesL1()
    ensures forall i :: 8 <= i < 16 ==> CopyRotates(L, Recipe(L)[i])
  {}

  lemma RecipeWritesL()
    ensures forall i :: 0 <= i < 16 ==> Written(AsWritten, L, Recipe(L)[i].Dst())
  {}

  lemma RecipeDistinctL()
    ensures forall i, j :: 0 <= i < j < 8 ==> Recipe(L)[i].Dst() != Recipe(L)[j].Dst()
    ensures forall i, j :: 0 <= i < 8 <= j < 16 ==> Recipe(L)[i].Dst() != Recipe(L)[j].Dst()
    ensures forall i, j :: 8 <= i < j < 16 ==> Recipe(L)[i].Dst() != Recipe(L)[j].Dst()
  {}

  lemma RecipeCoversL()
    ensures forall sl :: Written(AsWritten, L, sl) ==> exists k :: 0 <= k < 16 && Recipe(L)[k].Dst() == sl
  {
    var cs := Recipe(L);
    assert cs[0].Dst() == Slot(6, 0) && cs[1].Dst() == Slot(7, 0) && cs[2].Dst() == Slot(8, 0) && cs[3].Dst() == Slot(9, 0);
    assert cs[4].Dst() == Slot(6, 2) && cs[5].Dst() == Slot(7, 3) && cs[6].Dst() == Slot(8, 4) && cs[7].Dst() == Slot(9, 5);
    assert cs[8].Dst() == Slot(18, 2) && cs[9].Dst() == Slot(18, 4) && cs[10].Dst() == Slot(19, 2) && cs[11].Dst() == Slot(19, 5);
    assert cs[12].Dst() == Slot(20, 3) && cs[13].Dst() == Slot(20, 4) && cs[14].Dst() == Slot(21, 3) && cs[15].Dst() == Slot(21, 5);
  }

  lemma CornersRotateL()
    ensures forall i :: 0 <= i < 4 ==> CopyRotates(L, CornerCopies(L)[i])
  {
    CornersRotateL0();
    CornersRotateL1();
  }

  lemma CornersRotateL0()
    ensures forall i :: 0 <= i < 2 ==> CopyRotates(L, CornerCopies(L)[i])
  {}

  lemma CornersRotateL1()
    ensures forall i :: 2 <= i < 4 ==> CopyRotates(L, CornerCopies(L)[i])
  {}

  lemma CornersWriteL()
    ensures forall i :: 0 <= i < 4 ==> Written(Corrected, L, CornerCopies(L)[i].Dst()) && !Written(AsWritten, L, CornerCopies(L)[i].Dst())
  {}

  lemma CornersDistinctL()
    ensures DistinctDsts(CornerCopies(L))
  {}

  lemma CornersCoverL()
    ensures forall sl :: Written(Corrected, L, sl) && !Written(AsWritten, L, sl) ==> exists k :: 0 <= k < 4 && CornerCopies(L)[k].Dst() == sl
  {
    var ks := CornerCopies(L);
    assert ks[0].Dst() == Slot(18, 0) && ks[1].Dst() == Slot(19, 0) && ks[2].Dst() == Slot(20, 0) && ks[3].Dst() == Slot(21, 0);
  }

  lemma RecipeRotatesU()
    ensures forall i :: 0 <= i < 16 ==> CopyRotates(U, Recipe(U)[i])
  {
    RecipeRotatesU0();
    RecipeRotatesU1();
  }

  lemma RecipeRotatesU0()
    ensures forall i :: 0 <= i < 8 ==> CopyRotates(U, Recipe(U)[i])
  {}

  lemma RecipeRotatesU1()
    ensures forall i :: 8 <= i < 16 ==> CopyRotates(U, Recipe(U)[i])
  {}

  lemma RecipeWritesU()
    ensures forall i :: 0 <= i < 16 ==> Written(AsWritten, U, Recipe(U)[i].Dst())
  {}

  lemma RecipeDistinctU()
    ensures forall i, j :: 0 <= i < j < 8 ==> Recipe(U)[i].Dst() != Recipe(U)[j].Dst()
    ensures forall i, j :: 0 <= i < 8 <= j < 16 ==> Recipe(U)[i].Dst() != Recipe(U)[j].Dst()
    ensures forall i, j :: 8 <= i < j < 16 ==> Recipe(U)[i].Dst() != Recipe(U)[j].Dst()
  {}

  lemma RecipeCoversU()
    ensures forall sl :: Written(AsWritten, U, sl) ==> exists k :: 0 <= k < 16 && Recipe(U)[k].Dst() == sl
  {
    var cs := Recipe(U);
    assert cs[0].Dst() == Slot(7, 3) && cs[1].Dst() == Slot(11, 3) && cs[2].Dst() == Slot(16, 3) && cs[3].Dst() == Slot(17, 3);
    assert cs[4].Dst() == Slot(7, 0) && cs[5].Dst() == Slot(11, 1) && cs[6].Dst() == Slot(16, 4) && cs[7].Dst() == Slot(17, 5);
    assert cs[8].Dst() == Slot(20, 0) && cs[9].Dst() == Slot(20, 4) && cs[10].Dst() == Slot(21, 0) && cs[11].Dst() == Slot(21, 5);
    assert cs[12].Dst() == Slot(24, 1) && cs[13].Dst() == Slot(24, 4) && cs[14].Dst() == Slot(25, 1) && cs[15].Dst() == Slot(25, 5);
  }

  lemma CornersRotateU()
    ensures forall i :: 0 <= i < 4 ==> CopyRotates(U, CornerCopies(U)[i])
  {
    CornersRotateU0();
    CornersRotateU1();
  }

  lemma CornersRotateU0()
    ensures forall i :: 0 <= i < 2 ==> CopyRotates(U, CornerCopies(U)[i])
  {}

  lemma CornersRotateU1()
    ensures forall i :: 2 <= i < 4 ==> CopyRotates(U, CornerCopies(U)[i])
  {}

  lemma CornersWriteU()
    ensures forall i :: 0 <= i < 4 ==> Written(Corrected, U, CornerCopies(U)[i].Dst()) && !Written(AsWritten, U, CornerCopies(U)[i].Dst())
  {}

  lemma CornersDistinctU()
    ensures DistinctDsts(CornerCopies(U))
  {}

  lemma CornersCoverU()
    ensures forall sl :: Written(Corrected, U, sl) && !Written(AsWritten, U, sl) ==> exists k :: 0 <= k < 4 && CornerCopies(U)[k].Dst() == sl
  {
    var ks := CornerCopies(U);
    assert ks[0].Dst() == Slot(20, 3) && ks[1].Dst() == Slot(21, 3) && ks[2].Dst() == Slot(24, 3) && ks[3].Dst() == Slot(25, 3);
  }

  lemma RecipeRotatesD()
    ensures forall i :: 0 <= i < 16 ==> CopyRotates(D, Recipe(D)[i])
  {
    RecipeRotatesD0();
    RecipeRotatesD1();
  }

  lemma RecipeRotatesD0()
    ensures forall i :: 0 <= i < 8 ==> CopyRotates(D, Recipe(D)[i])
  {}

  lemma RecipeRotatesD1()
    ensures forall i :: 8 <= i < 16 ==> CopyRotates(D, Recipe(D)[i])
  {}

  lemma RecipeWritesD()
    ensures forall i :: 0 <= i < 16 ==> Written(AsWritten, D, Recipe(D)[i].Dst())
  {}

  lemma RecipeDistinctD()
    ensures forall i, j :: 0 <= i < j < 8 ==> Recipe(D)[i].Dst() != Recipe(D)[j].Dst()
    ensures forall i, j :: 0 <= i < 8 <= j < 16 ==> Recipe(D)[i].Dst() != Recipe(D)[j].Dst()
    ensures forall i, j :: 8 <= i < j < 16 ==> Recipe(D)[i].Dst() != Recipe(D)[j].Dst()
  {}

  lemma RecipeCoversD()
    ensures forall sl :: Written(AsWritten, D, sl) ==> exists k :: 0 <= k < 16 && Recipe(D)[k].Dst() == sl
  {
    var cs := Recipe(D);
    assert cs[0].Dst() == Slot(6, 2) && cs[1].Dst() == Slot(10, 2) && cs[2].Dst() == Slot(14, 2) && cs[3].Dst() == Slot(15, 2);
    assert cs[4].Dst() == Slot(6, 0) && cs[5].Dst() == Slot(10, 1) && cs[6].Dst() == Slot(14, 4) && cs[7].Dst() == Slot(15, 5);
    assert cs[8].Dst() == Slot(18, 0) && cs[9].Dst() == Slot(18, 4) && cs[10].Dst() == Slot(19, 0) && cs[11].Dst() == Slot(19, 5);
    assert cs[12].Dst() == Slot(22, 1) && cs[13].Dst() == Slot(22, 4) && cs[14].Dst() == Slot(23, 1) && cs[15].Dst() == Slot(23, 5);
  }

  lemma CornersRotateD()
    ensures forall i :: 0 <= i < 4 ==> CopyRotates(D, CornerCopies(D)[i])
  {
    CornersRotateD0();
    CornersRotateD1();
  }

  lemma CornersRotateD0()
    ensures forall i :: 0 <= i < 2 ==> CopyRotates(D, CornerCopies(D)[i])
  {}

  lemma CornersRotateD1()
    ensures forall i :: 2 <= i < 4 ==> CopyRotates(D, CornerCopies(D)[i])
  {}

  lemma CornersWriteD()
    ensures forall i :: 0 <= i < 4 ==> Written(Corrected, D, CornerCopies(D)[i].Dst()) && !Written(AsWritten, D, CornerCopies(D)[i].Dst())
  {}

  lemma CornersDistinctD()
    ensures DistinctDsts(CornerCopies(D))
  {}

  lemma CornersCoverD()
    ensures forall sl :: Written(Corrected, D, sl) && !Written(AsWritten, D, sl) ==> exists k :: 0 <= k < 4 && CornerCopies(D)[k].Dst() == sl
  {
    var ks := CornerCopies(D);
    assert ks[0].Dst() == Slot(18, 2) && ks[1].Dst() == Slot(19, 2) && ks[2].Dst() == Slot(22, 2) && ks[3].Dst() == Slot(23, 2);
  }

  lemma RecipeRotatesF()
    ensures forall i :: 0 <= i < 16 ==> CopyRotates(F, Recipe(F)[i])
  {
    RecipeRotatesF0();
    RecipeRotatesF1();
  }

  lemma RecipeRotatesF0()
    ensures forall i :: 0 <= i < 8 ==> CopyRotates(F, Recipe(F)[i])
  {}

  lemma RecipeRotatesF1()
    ensures forall i :: 8 <= i < 16 ==> CopyRotates(F, Recipe(F)[i])
  {}

  lemma RecipeWritesF()
    ensures forall i :: 0 <= i < 16 ==> Written(AsWritten, F, Recipe(F)[i].Dst())
  {}

  lemma RecipeDistinctF()
    ensures forall i, j :: 0 <= i < j < 8 ==> Recipe(F)[i].Dst() != Recipe(F)[j].Dst()
    ensures forall i, j :: 0 <= i < 8 <= j < 16 ==> Recipe(F)[i].Dst() != Recipe(F)[j].Dst()
    ensures forall i, j :: 8 <= i < j < 16 ==> Recipe(F)[i].Dst() != Recipe(F)[j].Dst()
  {}

  lemma RecipeCoversF()
    ensures forall sl :: Written(AsWritten, F, sl) ==> exists k :: 0 <= k < 16 && Recipe(F)[k].Dst() == sl
  {
    var cs := Recipe(F);
    assert cs[0].Dst() == Slot(9, 5) && cs[1].Dst() == Slot(13, 5) && cs[2].Dst() == Slot(15, 5) && cs[3].Dst() == Slot(17, 5);
    assert cs[4].Dst() == Slot(9, 0) && cs[5].Dst() == Slot(13, 1) && cs[6].Dst() == Slot(15, 2) && cs[7].Dst() == Slot(17, 3);
    assert cs[8].Dst() == Slot(19, 0) && cs[9].Dst() == Slot(19, 2) && cs[10].Dst() == Slot(21, 0) && cs[11].Dst() == Slot(21, 3);
    assert cs[12].Dst() == Slot(23, 1) && cs[13].Dst() == Slot(23, 2) && cs[14].Dst() == Slot(25, 1) && cs[15].Dst() == Slot(25, 3);
  }

  lemma CornersRotateF()
    ensures forall i :: 0 <= i < 4 ==> CopyRotates(F, CornerCopies(F)[i])
  {
    CornersRotateF0();
    CornersRotateF1();
  }

  lemma CornersRotateF0()
    ensures forall i :: 0 <= i < 2 ==> CopyRotates(F, CornerCopies(F)[i])
  {}

  lemma CornersRotateF1()
    ensures forall i :: 2 <= i < 4 ==> CopyRotates(F, CornerCopies(F)[i])
  {}

  lemma CornersWriteF()
    ensures forall i :: 0 <= i < 4 ==> Written(Corrected, F, CornerCopies(F)[i].Dst()) && !Written(AsWritten, F, CornerCopies(F)[i].Dst())
  {}

  lemma CornersDistinctF()
    ensures DistinctDsts(CornerCopies(F))
  {}

  lemma CornersCoverF()
    ensures forall sl :: Written(Corrected, F, sl) && !Written(AsWritten, F, sl) ==> exists k :: 0 <= k < 4 && CornerCopies(F)[k].Dst() == sl
  {
    var ks := CornerCopies(F);
    assert ks[0].Dst() == Slot(19, 5) && ks[1].Dst() == Slot(21, 5) && ks[2].Dst() == Slot(23, 5) && ks[3].Dst() == Slot(25, 5);
  }

  lemma RecipeRotatesB()
    ensures forall i :: 0 <= i < 16 ==> CopyRotates(B, Recipe(B)[i])
  {
    RecipeRotatesB0();
    RecipeRotatesB1();
  }

  lemma RecipeRotatesB0()
    ensures forall i :: 0 <= i < 8 ==> CopyRotates(B, Recipe(B)[i])
  {}

  lemma RecipeRotatesB1()
    ensures forall i :: 8 <= i < 16 ==> CopyRotates(B, Recipe(B)[i])
  {}

  lemma RecipeWritesB()
    ensures forall i :: 0 <= i < 16 ==> Written(AsWritten, B, Recipe(B)[i].Dst())
  {}

  lemma RecipeDistinctB()
    ensures forall i, j :: 0 <= i < j < 8 ==> Recipe(B)[i].Dst() != Recipe(B)[j].Dst()
    ensures forall i, j :: 0 <= i < 8 <= j < 16 ==> Recipe(B)[i].Dst() != Recipe(B)[j].Dst()
    ensures forall i, j :: 8 <= i < j < 16 ==> Recipe(B)[i].Dst() != Recipe(B)[j].Dst()
  {}

  lemma RecipeCoversB()
    ensures forall sl :: Written(AsWritten, B, sl) ==> exists k :: 0 <= k < 16 && Recipe(B)[k].Dst() == sl
  {
    var cs := Recipe(B);
    assert cs[0].Dst() == Slot(8, 4) && cs[1].Dst() == Slot(12, 4) && cs[2].Dst() == Slot(14, 4) && cs[3].Dst() == Slot(16, 4);
    assert cs[4].Dst() == Slot(8, 0) && cs[5].Dst() == Slot(12, 1) && cs[6].Dst() == Slot(14, 2) && cs[7].Dst() == Slot(16, 3);
    assert cs[8].Dst() == Slot(18, 0) && cs[9].Dst() == Slot(18, 2) && cs[10].Dst() == Slot(20, 0) && cs[11].Dst() == Slot(20, 3);
    assert cs[12].Dst() == Slot(22, 1) && cs[13].Dst() == Slot(22, 2) && cs[14].Dst() == Slot(24, 1) && cs[15].Dst() == Slot(24, 3);
  }

  lemma CornersRotateB()
    ensures forall i :: 0 <= i < 4 ==> CopyRotates(B, CornerCopies(B)[i])
  {
    CornersRotateB0();
    CornersRotateB1();
  }

  lemma CornersRotateB0()
    ensures forall i :: 0 <= i < 2 ==> CopyRotates(B, CornerCopies(B)[i])
  {}

  lemma CornersRotateB1()
    ensures forall i :: 2 <= i < 4 ==> CopyRotates(B, CornerCopies(B)[i])
  {}

  lemma CornersWriteB()
    ensures forall i :: 0 <= i < 4 ==> Written(Corrected, B, CornerCopies(B)[i].Dst()) && !Written(AsWritten, B, CornerCopies(B)[i].Dst())
  {}

  lemma CornersDistinctB()
    ensures DistinctDsts(CornerCopies(B))
  {}

  lemma CornersCoverB()
    ensures forall sl :: Written(Corrected, B, sl) && !Written(AsWritten, B, sl) ==> exists k :: 0 <= k < 4 && CornerCopies(B)[k].Dst() == sl
  {
    var ks := CornerCopies(B);
    assert ks[0].Dst() == Slot(18, 4) && ks[1].Dst() == Slot(20, 4) && ks[2].Dst() == Slot(22, 4) && ks[3].Dst() == Slot(24, 4);
  }
}
