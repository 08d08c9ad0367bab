/**
  The puzzle state the OpenGL plugin keeps between frames and the routines
  that animate it: the live vertex array, the colour snapshot taken when a
  turn completes, the running command and the turn counter.

  Every loop of the program is a function recursing on the loop index, so
  that what the loop leaves behind is stated once, in closed form, in its
  contract. The rotation arithmetic of the math library is a parameter
  `rot`, and so is each value `rand()` returns.
*/
module Plugin {
  import opened Geometry
  import opened Turns
  import opened Stickers

  /**
    Rotation of a position by the angles `rotate_subcube` is handed, in
    quarter-degrees about x, y and z (`XrMatrix4x4f_CreateRotation` then
    `XrMatrix4x4f_TransformVector3f`).
  */
  type Rotation = (Vec3, Angles) -> Vec3

  /**
    `vertices` is `m_cubeVertices`, `snapshot` the colours of
    `m_tmpVertices`, `rotateCmd` the running command (0 when idle, 1..6 for
    R, L, U, D, F, B) and `rotateCurrent` the static turn counter of
    `increment_rotate`, in quarter-degrees.
  */
  datatype State = State(vertices: seq<Vertex>, snapshot: seq<Color>, rotateCmd: int, rotateCurrent: int)

  predicate Sized(e: State) {
    |e.vertices| == VertexCount && |e.snapshot| == VertexCount
  }

  /** Vertex `k` with its position rotated by `a`. */
  function Rotated(v: Vertex, a: Angles, rot: Rotation): Vertex {
    v.(position := rot(v.position, a))
  }

  /** Vertex `k` lies in the block of sub-cube `s` exactly when its index is in `[36 s, 36 s + 36)`. */
  lemma InBlock(k: int, s: int)
    requires 0 <= k < VertexCount && 0 <= s < SubCubeCount
    ensures s * 36 <= k < s * 36 + 36 <==> SubCubeOf(k) == s
  {
    DecodeIndex(k);
  }

  /** Vertex `k` lies on face `f` of sub-cube `s` exactly when its index is in `[36 s + 6 f, 36 s + 6 f + 6)`. */
  lemma InFace(k: int, s: int, f: int)
    requires 0 <= k < VertexCount && 0 <= s < SubCubeCount && 0 <= f < 6
    ensures s * 36 + f * 6 <= k < s * 36 + f * 6 + 6 <==> SubCubeOf(k) == s && FaceOf(k) == f
  {
    DecodeIndex(k);
    if s * 36 + f * 6 <= k < s * 36 + f * 6 + 6 {
      EncodeIndex(s, f, k - s * 36 - f * 6);
    }
  }

  /** The loop of `rotate_subcube` from step `i` on: vertices `base + i .. base + 35` are rotated. */
  function RotateLoop(vs: seq<Vertex>, base: int, i: int, a: Angles, rot: Rotation): (r: seq<Vertex>)
    requires 0 <= base && base + 36 <= |vs| && 0 <= i <= 36
    ensures |r| == |vs|
    ensures forall k :: 0 <= k < |vs| ==> r[k] == if base + i <= k < base + 36 then Rotated(vs[k], a, rot) else vs[k]
    decreases 36 - i
  {
    if i == 36 then vs
    else RotateLoop(vs[base + i := Rotated(vs[base + i], a, rot)], base, i + 1, a, rot)
  }

  /** `rotate_subcube(scube, ...)`: the 36 vertices of sub-cube `scube` are rotated, colours kept. */
  function RotateSubCube(vs: seq<Vertex>, scube: int, a: Angles, rot: Rotation): (r: seq<Vertex>)
    requires |vs| == VertexCount && 0 <= scube < SubCubeCount
    ensures |r| == VertexCount
    ensures forall k :: 0 <= k < VertexCount ==> r[k] == if SubCubeOf(k) == scube then Rotated(vs[k], a, rot) else vs[k]
  {
    var r := RotateLoop(vs, scube * 36, 0, a, rot);
    forall k | 0 <= k < VertexCount ensures r[k] == if SubCubeOf(k) == scube then Rotated(vs[k], a, rot) else vs[k] {
      InBlock(k, scube);
    }
    r
  }

  /** The loop over `subcube_indices` in a `rotate_X`: each listed sub-cube is rotated once, in order. */
  function RotateLayer(vs: seq<Vertex>, ps: seq<int>, a: Angles, rot: Rotation): (r: seq<Vertex>)
    requires |vs| == VertexCount
    requires forall j :: 0 <= j < |ps| ==> 0 <= ps[j] < SubCubeCount
    requires forall j, l :: 0 <= j < l < |ps| ==> ps[j] != ps[l]
    ensures |r| == VertexCount
    ensures forall k :: 0 <= k < VertexCount ==> r[k] == if SubCubeOf(k) in ps then Rotated(vs[k], a, rot) else vs[k]
    decreases |ps|
  {
    if ps == [] then vs
    else
      var r := RotateLayer(RotateSubCube(vs, ps[0], a, rot), ps[1..], a, rot);
      HeadAndTail(ps);
      forall k | 0 <= k < VertexCount ensures r[k] == if SubCubeOf(k) in ps then Rotated(vs[k], a, rot) else vs[k] {
        Member(ps, SubCubeOf(k));
      }
      r
  }

  /** A list without repetitions is its head followed by a tail that does not contain it. */
  lemma HeadAndTail(ps: seq<int>)
    requires ps != [] && forall j, l :: 0 <= j < l < |ps| ==> ps[j] != ps[l]
    ensures forall x :: x in ps <==> x == ps[0] || x in ps[1..]
    ensures ps[0] !in ps[1..]
  {
    assert ps == [ps[0]] + ps[1..];
  }

  /** `x` is in a non-empty list exactly when it is its head or in its tail. */
  lemma Member(xs: seq<int>, x: int)
    requires xs != []
    ensures x in xs <==> x == xs[0] || x in xs[1..]
  {
    assert xs == [xs[0]] + xs[1..];
  }

  /** Where vertex `k` sits in the reference table. */
  function HomePosition(k: int): Vec3
    requires 0 <= k < VertexCount
  {
    ReferenceVertices()[k].position
  }

  /** The loop of `reset` from index `i` on: positions back to the table, colours copied into the snapshot. */
  function ResetLoop(vs: seq<Vertex>, snap: seq<Color>, i: int): (r: (seq<Vertex>, seq<Color>))
    requires |vs| == VertexCount && |snap| == VertexCount && 0 <= i <= VertexCount
    ensures |r.0| == VertexCount && |r.1| == VertexCount
    ensures forall k :: 0 <= k < VertexCount ==>
      r.0[k] == (if k < i then vs[k] else vs[k].(position := HomePosition(k)))
      && r.1[k] == (if k < i then snap[k] else vs[k].color)
    decreases VertexCount - i
  {
    if i == VertexCount then (vs, snap)
    else ResetLoop(vs[i := vs[i].(position := HomePosition(i))], snap[i := vs[i].color], i + 1)
  }

  /**
    `reset`: the command is cleared, every position is restored from the
    reference table and the colours are snapshotted; colours and the
    counter are untouched.
  */
  function Reset(e: State): (r: State)
    requires Sized(e)
    ensures Sized(r) && r.rotateCmd == 0 && r.rotateCurrent == e.rotateCurrent
    ensures forall k :: 0 <= k < VertexCount ==>
      r.vertices[k].position == HomePosition(k) && r.vertices[k].color == e.vertices[k].color
    ensures forall k :: 0 <= k < VertexCount ==> r.snapshot[k] == e.vertices[k].color
  {
    var r := ResetLoop(e.vertices, e.snapshot, 0);
    State(r.0, r.1, 0, e.rotateCurrent)
  }

  /**
    `increment_rotate(dir)`: the counter steps a quarter-degree down for a
    negative `dir` and up otherwise; passing -90 degrees downwards or +90
    upwards ends the turn (reset, counter back to 0, false), any other
    step reports true.
  */
  function IncrementRotate(e: State, dir: int): (r: (State, bool))
    requires Sized(e)
    ensures Sized(r.0)
    ensures !r.1 <==> (dir < 0 && e.rotateCurrent <= -360) || (dir > 0 && e.rotateCurrent >= 360)
    ensures !r.1 ==> r.0 == Reset(e).(rotateCurrent := 0)
    ensures r.1 ==> r.0.vertices == e.vertices && r.0.snapshot == e.snapshot && r.0.rotateCmd == e.rotateCmd
    ensures r.1 ==> r.0.rotateCurrent == e.rotateCurrent + (if dir < 0 then -1 else 1)
  {
    var current := if dir < 0 then e.rotateCurrent - 1 else e.rotateCurrent + 1;
    if (dir < 0 && current < -360) || (dir > 0 && current > 360) then
      (Reset(e).(rotateCurrent := 0), false)
    else
      (e.(rotateCurrent := current), true)
  }

  /** The vertex of the source face of copy `c` in the same corner of its face as vertex `k`. */
  function SourceVertex(c: Copy, k: int): (j: int)
    requires c.Src().Valid()
    ensures 0 <= j < VertexCount
  {
    EncodeIndex(c.srcCube, c.srcFace, CornerOf(k));
    VertexIndex(c.srcCube, c.srcFace, CornerOf(k))
  }

  /** The loop of `copy_subCube_face_colors` from step `j` on. */
  function CopyLoop(vs: seq<Vertex>, snap: seq<Color>, dstOff: int, srcOff: int, j: int): (r: seq<Vertex>)
    requires 0 <= dstOff && dstOff + 6 <= |vs| && 0 <= srcOff && srcOff + 6 <= |snap| && 0 <= j <= 6
    ensures |r| == |vs|
    ensures forall k :: 0 <= k < |vs| ==>
      r[k] == if dstOff + j <= k < dstOff + 6 then vs[k].(color := snap[srcOff + (k - dstOff)]) else vs[k]
    decreases 6 - j
  {
    if j == 6 then vs
    else CopyLoop(vs[dstOff + j := vs[dstOff + j].(color := snap[srcOff + j])], snap, dstOff, srcOff, j + 1)
  }

  /**
    `copy_subCube_face_colors(dstCube, dstFace, srcCube, srcFace)`: each of
    the six vertices of the destination face takes the snapshot colour of
    the vertex in the same corner of the source face.
  */
  function CopyFace(vs: seq<Vertex>, snap: seq<Color>, c: Copy): (r: seq<Vertex>)
    requires |vs| == VertexCount && |snap| == VertexCount && c.Dst().Valid() && c.Src().Valid()
    ensures |r| == VertexCount
    ensures forall k :: 0 <= k < VertexCount ==>
      r[k] == (if SubCubeOf(k) == c.dstCube && FaceOf(k) == c.dstFace then vs[k].(color := snap[SourceVertex(c, k)]) else vs[k])
  {
    var r := CopyLoop(vs, snap, c.dstCube * 36 + c.dstFace * 6, c.srcCube * 36 + c.srcFace * 6, 0);
    forall k | 0 <= k < VertexCount
      ensures r[k] == if SubCubeOf(k) == c.dstCube && FaceOf(k) == c.dstFace
        then vs[k].(color := snap[SourceVertex(c, k)]) else vs[k]
    {
      CopiedVertexIndex(c, k);
    }
    r
  }

  /** Vertex `k` lies in the destination block of copy `c` exactly when it is on the destination face, and then it reads its source corner. */
  lemma CopiedVertexIndex(c: Copy, k: int)
    requires c.Dst().Valid() && c.Src().Valid() && 0 <= k < VertexCount
    ensures var d := c.dstCube * 36 + c.dstFace * 6;
      (d <= k < d + 6 <==> SubCubeOf(k) == c.dstCube && FaceOf(k) == c.dstFace)
      && (d <= k < d + 6 ==> c.srcCube * 36 + c.srcFace * 6 + (k - d) == SourceVertex(c, k))
  {
    InFace(k, c.dstCube, c.dstFace);
    DecodeIndex(k);
  }

  /** The loop of `reset_subCube_colors` from step `j` on. */
  function GreyLoop(vs: seq<Vertex>, dstOff: int, j: int): (r: seq<Vertex>)
    requires 0 <= dstOff && dstOff + 36 <= |vs| && 0 <= j <= 36
    ensures |r| == |vs|
    ensures forall k :: 0 <= k < |vs| ==> r[k] == if dstOff + j <= k < dstOff + 36 then vs[k].(color := Grey) else vs[k]
    decreases 36 - j
  {
    if j == 36 then vs
    else GreyLoop(vs[dstOff + j := vs[dstOff + j].(color := Grey)], dstOff, j + 1)
  }

  /** `reset_subCube_colors(dstInd)`: all 36 vertices of the sub-cube turn Grey. */
  function GreySubCube(vs: seq<Vertex>, s: int): (r: seq<Vertex>)
    requires |vs| == VertexCount && 0 <= s < SubCubeCount
    ensures |r| == VertexCount
    ensures forall k :: 0 <= k < VertexCount ==> r[k] == if SubCubeOf(k) == s then vs[k].(color := Grey) else vs[k]
  {
    var r := GreyLoop(vs, s * 36, 0);
    forall k | 0 <= k < VertexCount ensures r[k] == if SubCubeOf(k) == s then vs[k].(color := Grey) else vs[k] {
      InBlock(k, s);
    }
    r
  }

  /** The `reset_subCube_colors` calls of a completed turn, one per listed sub-cube, in order. */
  function GreyAll(vs: seq<Vertex>, es: seq<int>): (r: seq<Vertex>)
    requires |vs| == VertexCount && forall i :: 0 <= i < |es| ==> 0 <= es[i] < SubCubeCount
    ensures |r| == VertexCount
    ensures forall k :: 0 <= k < VertexCount ==> r[k] == if SubCubeOf(k) in es then vs[k].(color := Grey) else vs[k]
    decreases |es|
  {
    if es == [] then vs
    else
      var g := GreySubCube(vs, es[0]);
      var r := GreyAll(g, es[1..]);
      forall k | 0 <= k < VertexCount
        ensures r[k] == if SubCubeOf(k) in es then vs[k].(color := Grey) else vs[k]
      {
        Member(es, SubCubeOf(k));
      }
      r
  }

  /**
    The `copy_subCube_face_colors` calls of a completed turn, in program
    order: a face vertex takes the snapshot colour of the matching vertex
    of the source face of the LAST copy writing its face, and is kept when
    no copy writes it.
  */
  function ApplyCopies(vs: seq<Vertex>, snap: seq<Color>, cs: seq<Copy>): (r: seq<Vertex>)
    requires |vs| == VertexCount && |snap| == VertexCount
    requires forall i :: 0 <= i < |cs| ==> cs[i].Dst().Valid() && cs[i].Src().Valid()
    ensures |r| == VertexCount
    ensures forall k :: 0 <= k < VertexCount ==>
      r[k] == (var i := LastWrite(cs, Slot(SubCubeOf(k), FaceOf(k))); if i < 0 then vs[k] else vs[k].(color := snap[SourceVertex(cs[i], k)]))
  {
    if cs == [] then vs
    else
      var front := cs[..|cs| - 1];
      var r := CopyFace(ApplyCopies(vs, snap, front), snap, cs[|cs| - 1]);
      assert forall i :: 0 <= i < |front| ==> front[i] == cs[i];
      r
  }

  /**
    What a completed `rotate_X` does after `reset`: grey the four edge
    sub-cubes, then make the turn's colour copies from the snapshot.
  */
  function Complete(vs: seq<Vertex>, snap: seq<Color>, v: Variant, t: Turn): (r: seq<Vertex>)
    requires |vs| == VertexCount && |snap| == VertexCount
    ensures |r| == VertexCount
    ensures forall k :: 0 <= k < VertexCount ==>
      r[k] == (var i := LastWrite(Copies(v, t), Slot(SubCubeOf(k), FaceOf(k)));
               if i >= 0 then vs[k].(color := snap[SourceVertex(Copies(v, t)[i], k)])
               else if SubCubeOf(k) in GreyedEdges(t) then vs[k].(color := Grey)
               else vs[k])
  {
    ParticipantShape(t);
    ApplyCopies(GreyAll(vs, GreyedEdges(t)), snap, Copies(v, t))
  }

  /** The vertices after one step of a layer: those of the sub-cubes in `ps` turned by `a`, the rest as they were. */
  function LayerStep(vs: seq<Vertex>, ps: seq<int>, a: Angles, rot: Rotation): (r: seq<Vertex>)
    requires |vs| == VertexCount
    ensures |r| == VertexCount
  {
    seq(VertexCount, k requires 0 <= k < VertexCount => if SubCubeOf(k) in ps then Rotated(vs[k], a, rot) else vs[k])
  }

  /** The vertices after one frame of turn `t`: those of the turning layer's sub-cubes turned by the step angles. */
  function TurnLayer(vs: seq<Vertex>, t: Turn, rot: Rotation): (r: seq<Vertex>)
    requires |vs| == VertexCount
    ensures |r| == VertexCount
  {
    LayerStep(vs, Participants(t), StepAngles(t), rot)
  }

  /**
    The loop of `rotate_X` over its `subcube_indices`, one `rotate_subcube`
    call per listed sub-cube, leaves exactly the vertices of one frame.
  */
  lemma LayerLoop(vs: seq<Vertex>, t: Turn, rot: Rotation)
    requires |vs| == VertexCount
    ensures RotateLayer(vs, Participants(t), StepAngles(t), rot) == TurnLayer(vs, t, rot)
  {
    RotateLayerSteps(vs, Participants(t), StepAngles(t), rot);
  }

  /** Rotating the listed sub-cubes one by one is one layer step, whatever the list. */
  lemma RotateLayerSteps(vs: seq<Vertex>, ps: seq<int>, a: Angles, rot: Rotation)
    requires |vs| == VertexCount
    requires forall j :: 0 <= j < |ps| ==> 0 <= ps[j] < SubCubeCount
    requires forall j, l :: 0 <= j < l < |ps| ==> ps[j] != ps[l]
    ensures RotateLayer(vs, ps, a, rot) == LayerStep(vs, ps, a, rot)
  {
    var r, s := RotateLayer(vs, ps, a, rot), LayerStep(vs, ps, a, rot);
    assert forall k :: 0 <= k < VertexCount ==> r[k] == s[k];
  }

  /**
    One frame of `rotate_X` for turn `t`: nothing when idle; otherwise the
    nine sub-cubes of the layer turn by one step, the counter steps, and
    when that ends the turn the colours are rebuilt.
  */
  function RotateFace(e: State, v: Variant, t: Turn, rot: Rotation): (r: State)
    requires Sized(e)
    ensures Sized(r)
    ensures e.rotateCmd == 0 ==> r == e
    ensures r.rotateCmd == e.rotateCmd || r.rotateCmd == 0
  {
    if e.rotateCmd == 0 then e
    else
      var vs := TurnLayer(e.vertices, t, rot);
      var (e2, going) := IncrementRotate(e.(vertices := vs), Direction(t));
      if going then e2
      else e2.(vertices := Complete(e2.vertices, e2.snapshot, v, t))
  }

  /** `postRenderLayer`: the running command selects the `rotate_X` to run; any other value does nothing. */
  function PostRenderLayer(e: State, v: Variant, rot: Rotation): (r: State)
    requires Sized(e)
    ensures Sized(r)
    ensures !(1 <= e.rotateCmd <= 6) ==> r == e
    ensures r.rotateCmd == e.rotateCmd || r.rotateCmd == 0
  {
    match TurnOf(e.rotateCmd)
    case None => e
    case Some(t) => RotateFace(e, v, t, rot)
  }

  /**
    `execCmd`: when idle, start the turn `rand() % 6 + 1` selects, `rnd`
    being the value `rand()` returned; while a turn runs, do nothing.
  */
  function ExecCmd(e: State, rnd: nat): (r: State)
    ensures e.rotateCmd == 0 ==> r == e.(rotateCmd := rnd % 6 + 1)
    ensures e.rotateCmd != 0 ==> r == e
  {
    if e.rotateCmd == 0 then e.(rotateCmd := rnd % 6 + 1) else e
  }

  /** The loop of `InitializeResources` that fills the vertex array from the table, from index `i` on. */
  function LoadLoop(vs: seq<Vertex>, i: int): (r: seq<Vertex>)
    requires |vs| == VertexCount && 0 <= i <= VertexCount
    ensures |r| == VertexCount
    ensures forall k :: 0 <= k < VertexCount ==> r[k] == if k < i then vs[k] else ReferenceVertices()[k]
    decreases VertexCount - i
  {
    if i == VertexCount then vs
    else LoadLoop(vs[i := ReferenceVertices()[i]], i + 1)
  }

  /**
    The state after `InitializeResources`: whatever the vertex array held
    (`vs`), it now holds the reference table; the snapshot holds whatever
    it held (`snap`); idle, counter 0.
  */
  function Initial(vs: seq<Vertex>, snap: seq<Color>): (r: State)
    requires |vs| == VertexCount && |snap| == VertexCount
    ensures Sized(r) && r.vertices == ReferenceVertices() && r.rotateCmd == 0 && r.rotateCurrent == 0
  {
    State(LoadLoop(vs, 0), snap, 0, 0)
  }
}
