/**
  The plugin's puzzle state read as a whole over many frames: what one
  frame does while a turn runs and when it ends, how many frames a turn
  takes, which facts every reachable state keeps, and how the vertex
  colours left by a completed turn are the sticker colours `Stickers`
  describes.
*/
module Engine {
  import opened Wrappers
  import opened Geometry
  import opened Turns
  import opened Stickers
  import opened Plugin

  /** The first vertex of face `f` of sub-cube `s`, whose colour stands for the face. */
  function FaceVertex(s: int, f: int): (k: int)
    requires 0 <= s < SubCubeCount && 0 <= f < 6
    ensures 0 <= k < VertexCount && SubCubeOf(k) == s && FaceOf(k) == f
  {
    EncodeIndex(s, f, 0);
    VertexIndex(s, f, 0)
  }

  /** The (sub-cube, face) slot vertex `k` belongs to. */
  function SlotOf(k: int): (sl: Slot)
    requires 0 <= k < VertexCount
    ensures sl.Valid() && sl == Slot(SubCubeOf(k), FaceOf(k))
  {
    DecodeIndex(k);
    Slot(SubCubeOf(k), FaceOf(k))
  }

  /** The colours of a vertex array, as `reset` copies them into the snapshot. */
  function Colours(vs: seq<Vertex>): (r: seq<Color>)
    ensures |r| == |vs| && forall k :: 0 <= k < |vs| ==> r[k] == vs[k].color
  {
    seq(|vs|, k requires 0 <= k < |vs| => vs[k].color)
  }

  /** Each face of each sub-cube is drawn in one colour: its six vertices agree. */
  predicate UniformFaces(vs: seq<Vertex>)
    requires |vs| == VertexCount
  {
    forall k :: 0 <= k < VertexCount ==> vs[k].color == vs[FaceVertex(SlotOf(k).cube, SlotOf(k).face)].color
  }

  /** The sticker colours a vertex array shows, one per slot. */
  function StickersOf(vs: seq<Vertex>): (st: Stickers)
    requires |vs| == VertexCount
    ensures WellFormed(st)
    ensures forall s, f :: 0 <= s < SubCubeCount && 0 <= f < 6 ==> st[s][f] == vs[FaceVertex(s, f)].color
  {
    seq(SubCubeCount, s requires 0 <= s < SubCubeCount =>
      seq(6, f requires 0 <= f < 6 => vs[FaceVertex(s, f)].color))
  }

  /** With uniform faces every vertex shows its slot's sticker colour. */
  lemma VertexShowsSticker(vs: seq<Vertex>, k: int)
    requires |vs| == VertexCount && UniformFaces(vs) && 0 <= k < VertexCount
    ensures vs[k].color == At(StickersOf(vs), SlotOf(k))
  {}

  /**
    Two vertex arrays with uniform faces, the same positions and the same
    sticker colours are the same array.
  */
  lemma StickersDetermineColours(a: seq<Vertex>, b: seq<Vertex>)
    requires |a| == VertexCount && |b| == VertexCount && UniformFaces(a) && UniformFaces(b)
    requires forall k :: 0 <= k < VertexCount ==> a[k].position == b[k].position
    requires StickersOf(a) == StickersOf(b)
    ensures a == b
  {
    forall k | 0 <= k < VertexCount ensures a[k] == b[k] {
      VertexShowsSticker(a, k);
      VertexShowsSticker(b, k);
    }
  }

  /**
    The vertex colours a completed turn leaves, from a snapshot taken of
    the same colours: each vertex keeps its position and shows the colour
    `Stickers` gives its slot.
  */
  lemma CompletedVertex(vs: seq<Vertex>, v: Variant, t: Turn, k: int)
    requires |vs| == VertexCount && UniformFaces(vs) && 0 <= k < VertexCount
    ensures Complete(vs, Colours(vs), v, t)[k] == vs[k].(color := TurnedColour(v, t, StickersOf(vs), SlotOf(k)))
  {
    if LastWrite(Copies(v, t), SlotOf(k)) >= 0 {
      CopiedVertex(vs, v, t, k);
    } else {
      SourceOfCopies(v, t, SlotOf(k));
      VertexShowsSticker(vs, k);
    }
  }

  /** A vertex of a written face takes the colour of the face the quarter turn brings there. */
  lemma CopiedVertex(vs: seq<Vertex>, v: Variant, t: Turn, k: int)
    requires |vs| == VertexCount && UniformFaces(vs) && 0 <= k < VertexCount
    requires LastWrite(Copies(v, t), SlotOf(k)) >= 0
    ensures Complete(vs, Colours(vs), v, t)[k] == vs[k].(color := TurnedColour(v, t, StickersOf(vs), SlotOf(k)))
  {
    var cs, sl := Copies(v, t), SlotOf(k);
    var i := LastWrite(cs, sl);
    SourceOfCopies(v, t, sl);
    assert cs[i].Src() == SlotBefore(t, sl);
    SourceShowsSticker(vs, cs[i], k);
  }

  /** The snapshot vertex a copy reads shows the sticker colour of the copy's source slot. */
  lemma SourceShowsSticker(vs: seq<Vertex>, c: Copy, k: int)
    requires |vs| == VertexCount && UniformFaces(vs) && c.Src().Valid() && 0 <= k < VertexCount
    ensures vs[SourceVertex(c, k)].color == At(StickersOf(vs), c.Src())
  {
    var j := SourceVertex(c, k);
    DecodeIndex(k);
    EncodeIndex(c.srcCube, c.srcFace, CornerOf(k));
    assert SlotOf(j) == c.Src();
    VertexShowsSticker(vs, j);
  }

  /**
    A vertex array whose every vertex shows the colour a sticker state
    gives its slot has uniform faces and shows exactly that state.
  */
  lemma ShowsStickers(vs: seq<Vertex>, st: Stickers)
    requires |vs| == VertexCount && WellFormed(st)
    requires forall k :: 0 <= k < VertexCount ==> vs[k].color == At(st, SlotOf(k))
    ensures UniformFaces(vs) && StickersOf(vs) == st
  {
    forall k | 0 <= k < VertexCount
      ensures vs[k].color == vs[FaceVertex(SlotOf(k).cube, SlotOf(k).face)].color
    {
      var h := FaceVertex(SlotOf(k).cube, SlotOf(k).face);
      assert SlotOf(h) == SlotOf(k);
    }
    forall s | 0 <= s < SubCubeCount ensures StickersOf(vs)[s] == st[s] {
      forall f | 0 <= f < 6 ensures StickersOf(vs)[s][f] == st[s][f] {
        assert SlotOf(FaceVertex(s, f)) == Slot(s, f);
      }
    }
  }

  /** Vertex arrays with the same colours show the same stickers, and one has uniform faces when the other has. */
  lemma SameColours(a: seq<Vertex>, b: seq<Vertex>)
    requires |a| == VertexCount && |b| == VertexCount && Colours(a) == Colours(b)
    ensures StickersOf(a) == StickersOf(b)
    ensures UniformFaces(a) <==> UniformFaces(b)
  {
    forall k | 0 <= k < VertexCount ensures a[k].color == b[k].color {
      assert a[k].color == Colours(a)[k] == Colours(b)[k] == b[k].color;
    }
    forall s | 0 <= s < SubCubeCount ensures StickersOf(a)[s] == StickersOf(b)[s] {}
  }

  /**
    What `rotate_X` leaves when a turn completes, read per slot: the sticker
    colours are those of the turn applied to the colours before, every
    face is still one colour, and no vertex moves.
  */
  lemma CompleteTurnsStickers(vs: seq<Vertex>, v: Variant, t: Turn)
    requires |vs| == VertexCount && UniformFaces(vs)
    ensures var r := Complete(vs, Colours(vs), v, t);
      UniformFaces(r) && StickersOf(r) == TurnStickers(v, t, StickersOf(vs))
      && forall k :: 0 <= k < VertexCount ==> r[k].position == vs[k].position
  {
    var r := Complete(vs, Colours(vs), v, t);
    CompletedVertices(vs, v, t);
    ShowsStickers(r, TurnStickers(v, t, StickersOf(vs)));
  }

  /** Every vertex keeps its position and shows its turned sticker. */
  lemma CompletedVertices(vs: seq<Vertex>, v: Variant, t: Turn)
    requires |vs| == VertexCount && UniformFaces(vs)
    ensures var r, turned := Complete(vs, Colours(vs), v, t), TurnStickers(v, t, StickersOf(vs));
      forall k :: 0 <= k < VertexCount ==> r[k].position == vs[k].position && r[k].color == At(turned, SlotOf(k))
  {
    var r, turned := Complete(vs, Colours(vs), v, t), TurnStickers(v, t, StickersOf(vs));
    forall k | 0 <= k < VertexCount
      ensures r[k].position == vs[k].position && r[k].color == At(turned, SlotOf(k))
    {
      CompletedVertexShows(vs, v, t, k);
    }
  }

  /** `CompletedVertex`, split into the position kept and the sticker shown. */
  lemma CompletedVertexShows(vs: seq<Vertex>, v: Variant, t: Turn, k: int)
    requires |vs| == VertexCount && UniformFaces(vs) && 0 <= k < VertexCount
    ensures var r, turned := Complete(vs, Colours(vs), v, t), TurnStickers(v, t, StickersOf(vs));
      r[k].position == vs[k].position && r[k].color == At(turned, SlotOf(k))
  {
    var sl := SlotOf(k);
    CompletedVertex(vs, v, t, k);
    assert sl == Slot(sl.cube, sl.face);
    assert At(TurnStickers(v, t, StickersOf(vs)), sl) == TurnedColour(v, t, StickersOf(vs), sl);
  }

  /** After `reset` the snapshot holds the colours, which are those before. */
  lemma ResetColours(e: State)
    requires Sized(e)
    ensures Reset(e).snapshot == Colours(Reset(e).vertices) == Colours(e.vertices)
  {
    ResetSnapshot(e);
    ResetKeepsColours(e);
  }

  /** `reset` snapshots the colours the vertices had. */
  lemma ResetSnapshot(e: State)
    requires Sized(e)
    ensures Reset(e).snapshot == Colours(e.vertices)
  {}

  /** `reset` moves vertices home without recolouring them. */
  lemma ResetKeepsColours(e: State)
    requires Sized(e)
    ensures Colours(Reset(e).vertices) == Colours(e.vertices)
  {}

  /** `n` frames of `postRenderLayer`. */
  function Ticks(e: State, v: Variant, rot: Rotation, n: nat): (r: State)
    requires Sized(e)
    ensures Sized(r)
  {
    if n == 0 then e else PostRenderLayer(Ticks(e, v, rot, n - 1), v, rot)
  }

  /**
    A frame of a running turn that does not end it: the nine sub-cubes of
    the layer, and only their vertex blocks, turn by one step; colours, the
    snapshot and the command stay; the counter steps by the turn's
    direction.
  */
  lemma TickFrame(e: State, v: Variant, t: Turn, rot: Rotation)
    requires Sized(e) && e.rotateCmd == CmdOf(t)
    requires -360 <= e.rotateCurrent + Direction(t) <= 360
    ensures var r := PostRenderLayer(e, v, rot);
      r.rotateCmd == e.rotateCmd && r.rotateCurrent == e.rotateCurrent + Direction(t) && r.snapshot == e.snapshot
      && (forall k :: 0 <= k < VertexCount ==>
            r.vertices[k] == if SubCubeOf(k) in Participants(t) then Rotated(e.vertices[k], StepAngles(t), rot) else e.vertices[k])
      && Colours(r.vertices) == Colours(e.vertices)
  {
    RunningFrame(e, v, t, rot);
    LayerKeepsColours(e.vertices, t, rot);
  }

  /** Turning the layer moves vertices and recolours none. */
  lemma LayerKeepsColours(vs: seq<Vertex>, t: Turn, rot: Rotation)
    requires |vs| == VertexCount
    ensures Colours(TurnLayer(vs, t, rot)) == Colours(vs)
  {
    var a, b := Colours(TurnLayer(vs, t, rot)), Colours(vs);
    assert forall k :: 0 <= k < |a| ==> a[k] == b[k];
  }

  /** A frame that does not end the turn is the layer step and the counter step, nothing else. */
  lemma RunningFrame(e: State, v: Variant, t: Turn, rot: Rotation)
    requires Sized(e) && e.rotateCmd == CmdOf(t)
    requires -360 <= e.rotateCurrent + Direction(t) <= 360
    ensures PostRenderLayer(e, v, rot) == e.(vertices := TurnLayer(e.vertices, t, rot), rotateCurrent := e.rotateCurrent + Direction(t))
  {
    assert TurnOf(e.rotateCmd) == Some(t);
    assert PostRenderLayer(e, v, rot) == RotateFace(e, v, t, rot);
  }

  /**
    The frame that ends a turn is `reset` with the counter cleared,
    followed by the greying and the copies from the snapshot `reset` took.
  */
  lemma EndingFrame(e: State, v: Variant, t: Turn, rot: Rotation)
    requires Sized(e) && e.rotateCmd == CmdOf(t) && e.rotateCurrent == 360 * Direction(t)
    ensures var e2 := Reset(e.(vertices := TurnLayer(e.vertices, t, rot))).(rotateCurrent := 0);
      PostRenderLayer(e, v, rot) == e2.(vertices := Complete(e2.vertices, e2.snapshot, v, t))
  {
    var e1 := e.(vertices := TurnLayer(e.vertices, t, rot));
    assert TurnOf(e.rotateCmd) == Some(t);
    assert PostRenderLayer(e, v, rot) == RotateFace(e, v, t, rot);
    assert !IncrementRotate(e1, Direction(t)).1;
  }

  /**
    The frame that ends a turn: the command is cleared, the counter is 0,
    every vertex is back at its table position, the snapshot holds the
    colours the turn started from, and the colours are those `Stickers`
    gives for the completed turn.
  */
  lemma TickCompletes(e: State, v: Variant, t: Turn, rot: Rotation)
    requires Sized(e) && e.rotateCmd == CmdOf(t) && e.rotateCurrent == 360 * Direction(t)
    requires UniformFaces(e.vertices)
    ensures var r := PostRenderLayer(e, v, rot);
      r.rotateCmd == 0 && r.rotateCurrent == 0
      && (forall k :: 0 <= k < VertexCount ==> r.vertices[k].position == HomePosition(k))
      && r.snapshot == Colours(e.vertices)
      && UniformFaces(r.vertices) && StickersOf(r.vertices) == TurnStickers(v, t, StickersOf(e.vertices))
  {
    var e2 := Reset(e.(vertices := TurnLayer(e.vertices, t, rot))).(rotateCurrent := 0);
    EndingFrame(e, v, t, rot);
    ResetAfterLayer(e, t, rot);
    SameColours(e2.vertices, e.vertices);
    CompleteTurnsStickers(e2.vertices, v, t);
  }

  /** The state `reset` leaves after the last step of a layer: home positions, colours and snapshot those before. */
  lemma ResetAfterLayer(e: State, t: Turn, rot: Rotation)
    requires Sized(e)
    ensures var e2 := Reset(e.(vertices := TurnLayer(e.vertices, t, rot)));
      e2.snapshot == Colours(e2.vertices) == Colours(e.vertices)
      && forall k :: 0 <= k < VertexCount ==> e2.vertices[k].position == HomePosition(k)
  {
    var e1 := e.(vertices := TurnLayer(e.vertices, t, rot));
    assert Colours(e1.vertices) == Colours(e.vertices);
    ResetColours(e1);
  }

  /**
    The first 360 frames of a turn started from counter 0: the command
    stays, the counter has moved `n` quarter-degrees in the turn's
    direction, and neither the colours nor the snapshot change.
  */
  lemma {:induction false} TurnRuns(e: State, v: Variant, t: Turn, rot: Rotation, n: nat)
    requires Sized(e) && e.rotateCmd == CmdOf(t) && e.rotateCurrent == 0 && n <= 360
    ensures var r := Ticks(e, v, rot, n);
      r.rotateCmd == CmdOf(t) && r.rotateCurrent == (if Direction(t) < 0 then -(n as int) else n) && r.snapshot == e.snapshot
      && Colours(r.vertices) == Colours(e.vertices)
  {
    if n > 0 {
      TurnRuns(e, v, t, rot, n - 1);
      var p := Ticks(e, v, rot, n - 1);
      assert Ticks(e, v, rot, n) == PostRenderLayer(p, v, rot);
      FrameSteps(p, v, t, rot);
    }
  }

  /** What a frame of a running turn that does not end it keeps and changes, leaving out the positions. */
  lemma FrameSteps(e: State, v: Variant, t: Turn, rot: Rotation)
    requires Sized(e) && e.rotateCmd == CmdOf(t)
    requires -360 <= e.rotateCurrent + Direction(t) <= 360
    ensures var r := PostRenderLayer(e, v, rot);
      r.rotateCmd == e.rotateCmd && r.rotateCurrent == e.rotateCurrent + Direction(t) && r.snapshot == e.snapshot
      && Colours(r.vertices) == Colours(e.vertices)
  {
    TickFrame(e, v, t, rot);
  }

  /**
    A turn takes 361 frames: the command stays through the first 360 and
    is cleared by the 361st, which leaves the counter at 0, every vertex at
    its table position, the snapshot holding the starting colours and the
    colours of the completed turn.
  */
  lemma TurnTakes361Frames(e: State, v: Variant, t: Turn, rot: Rotation)
    requires Sized(e) && e.rotateCmd == CmdOf(t) && e.rotateCurrent == 0 && UniformFaces(e.vertices)
    ensures forall n :: 0 <= n <= 360 ==> Ticks(e, v, rot, n).rotateCmd == CmdOf(t)
    ensures var r := Ticks(e, v, rot, 361);
      r.rotateCmd == 0 && r.rotateCurrent == 0
      && (forall k :: 0 <= k < VertexCount ==> r.vertices[k].position == HomePosition(k))
      && r.snapshot == Colours(e.vertices)
      && UniformFaces(r.vertices) && StickersOf(r.vertices) == TurnStickers(v, t, StickersOf(e.vertices))
  {
    StillRunning(e, v, t, rot);
    TurnEnds(e, v, t, rot);
  }

  /** Frame 361 of a turn completes it. */
  lemma TurnEnds(e: State, v: Variant, t: Turn, rot: Rotation)
    requires Sized(e) && e.rotateCmd == CmdOf(t) && e.rotateCurrent == 0 && UniformFaces(e.vertices)
    ensures var r := Ticks(e, v, rot, 361);
      r.rotateCmd == 0 && r.rotateCurrent == 0
      && (forall k :: 0 <= k < VertexCount ==> r.vertices[k].position == HomePosition(k))
      && r.snapshot == Colours(e.vertices)
      && UniformFaces(r.vertices) && StickersOf(r.vertices) == TurnStickers(v, t, StickersOf(e.vertices))
  {
    TurnRuns(e, v, t, rot, 360);
    var p := Ticks(e, v, rot, 360);
    SameColours(p.vertices, e.vertices);
    TickCompletes(p, v, t, rot);
  }

  /** Through the first 360 frames the turn's command stays set. */
  lemma StillRunning(e: State, v: Variant, t: Turn, rot: Rotation)
    requires Sized(e) && e.rotateCmd == CmdOf(t) && e.rotateCurrent == 0
    ensures forall n :: 0 <= n <= 360 ==> Ticks(e, v, rot, n).rotateCmd == CmdOf(t)
  {
    forall n | 0 <= n <= 360 ensures Ticks(e, v, rot, n).rotateCmd == CmdOf(t) {
      TurnRuns(e, v, t, rot, n);
    }
  }

  /**
    The facts every state the plugin reaches keeps: sizes; a command of
    0..6; each face one colour; hidden faces Grey; when idle, the counter
    at 0 and every vertex at its table position; while a turn runs, the
    counter between 0 and 360 quarter-degrees in the turn's direction.
  */
  predicate Consistent(e: State) {
    Sized(e) && 0 <= e.rotateCmd <= 6
    && UniformFaces(e.vertices) && HiddenGrey(StickersOf(e.vertices))
    && (e.rotateCmd == 0 ==>
          e.rotateCurrent == 0 && forall k :: 0 <= k < VertexCount ==> e.vertices[k].position == HomePosition(k))
    && (e.rotateCmd != 0 ==> Underway(TurnOf(e.rotateCmd).value, e.rotateCurrent))
  }

  /** Counter `c` lies between 0 and a full quarter turn (360 quarter-degrees) in the direction of `t`. */
  predicate Underway(t: Turn, c: int) {
    if Direction(t) < 0 then -360 <= c <= 0 else 0 <= c <= 360
  }

  /** `InitializeResources` leaves a consistent, idle, solved puzzle. */
  lemma InitialIsSolved(vs: seq<Vertex>, snap: seq<Color>)
    requires |vs| == VertexCount && |snap| == VertexCount
    ensures Consistent(Initial(vs, snap)) && StickersOf(Initial(vs, snap).vertices) == Solved()
  {
    ReferenceIsSolved();
    SolvedHidesGrey();
  }

  /** The reference table draws every face in one colour and shows the solved puzzle. */
  lemma ReferenceIsSolved()
    ensures UniformFaces(ReferenceVertices()) && StickersOf(ReferenceVertices()) == Solved()
  {
    var r := ReferenceVertices();
    forall k | 0 <= k < VertexCount ensures r[k].color == At(Solved(), SlotOf(k)) {
      DecodeIndex(k);
      ReferenceColors(SubCubeOf(k), FaceOf(k), CornerOf(k));
    }
    ShowsStickers(r, Solved());
  }

  /** In the solved puzzle every face on the inside is Grey. */
  lemma SolvedHidesGrey()
    ensures HiddenGrey(Solved())
  {
    forall s, f | 0 <= s < SubCubeCount && 0 <= f < 6 && !Exposed(CellAt(s), f) ensures Solved()[s][f] == Grey {
      ExposedIsVisible(s, f);
    }
  }

  /** `execCmd` keeps every reachable state consistent. */
  lemma ExecCmdKeepsConsistent(e: State, rnd: nat)
    requires Consistent(e)
    ensures Consistent(ExecCmd(e, rnd))
  {}

  /** A frame of `postRenderLayer` keeps every reachable state consistent. */
  lemma FrameKeepsConsistent(e: State, v: Variant, rot: Rotation)
    requires Consistent(e)
    ensures Consistent(PostRenderLayer(e, v, rot))
  {
    if e.rotateCmd != 0 {
      CommandRoundTrip(e.rotateCmd);
      var t := TurnOf(e.rotateCmd).value;
      if -360 <= e.rotateCurrent + Direction(t) <= 360 {
        RunningFrameKeepsConsistent(e, v, t, rot);
      } else {
        EndingFrameKeepsConsistent(e, v, t, rot);
      }
    }
  }

  /** The frame case of `FrameKeepsConsistent` when the turn keeps running. */
  lemma RunningFrameKeepsConsistent(e: State, v: Variant, t: Turn, rot: Rotation)
    requires Consistent(e) && e.rotateCmd == CmdOf(t) && -360 <= e.rotateCurrent + Direction(t) <= 360
    ensures Consistent(PostRenderLayer(e, v, rot))
  {
    var r := PostRenderLayer(e, v, rot);
    FrameSteps(e, v, t, rot);
    SameColours(r.vertices, e.vertices);
  }

  /** The frame case of `FrameKeepsConsistent` when the turn ends. */
  lemma EndingFrameKeepsConsistent(e: State, v: Variant, t: Turn, rot: Rotation)
    requires Consistent(e) && e.rotateCmd == CmdOf(t) && !(-360 <= e.rotateCurrent + Direction(t) <= 360)
    ensures Consistent(PostRenderLayer(e, v, rot))
  {
    assert e.rotateCurrent == 360 * Direction(t);
    TickCompletes(e, v, t, rot);
    TurnKeepsHiddenGrey(v, t, StickersOf(e.vertices));
  }

  /**
    A whole turn as the program runs it from an idle state: `execCmd` with
    the `rand()` value that selects `t`, then 361 frames.
  */
  function FullTurn(e: State, v: Variant, t: Turn, rot: Rotation): (r: State)
    requires Sized(e)
    ensures Sized(r)
  {
    Ticks(ExecCmd(e, CmdOf(t) - 1), v, rot, 361)
  }

  /**
    A whole turn from a consistent idle state ends in a consistent idle
    state showing the completed turn's sticker colours.
  */
  lemma FullTurnFacts(e: State, v: Variant, t: Turn, rot: Rotation)
    requires Consistent(e) && e.rotateCmd == 0
    ensures var r := FullTurn(e, v, t, rot);
      Consistent(r) && r.rotateCmd == 0
      && StickersOf(r.vertices) == TurnStickers(v, t, StickersOf(e.vertices))
  {
    var e1 := ExecCmd(e, CmdOf(t) - 1);
    assert e1 == e.(rotateCmd := CmdOf(t));
    TurnTakes361Frames(e1, v, t, rot);
    TurnKeepsHiddenGrey(v, t, StickersOf(e.vertices));
  }

  /**
    Four whole turns of the same face bring the vertex array back exactly,
    positions and colours, for the program's copies as for the corrected
    ones.
  */
  lemma FourTurnsRestore(e: State, v: Variant, t: Turn, rot: Rotation)
    requires Consistent(e) && e.rotateCmd == 0
    ensures var r := FullTurn(FullTurn(FullTurn(FullTurn(e, v, t, rot), v, t, rot), v, t, rot), v, t, rot);
      r.vertices == e.vertices && r.rotateCmd == 0 && r.rotateCurrent == 0
  {
    var e1 := FullTurn(e, v, t, rot);
    var e2 := FullTurn(e1, v, t, rot);
    var e3 := FullTurn(e2, v, t, rot);
    var e4 := FullTurn(e3, v, t, rot);
    FullTurnFacts(e, v, t, rot);
    FullTurnFacts(e1, v, t, rot);
    FullTurnFacts(e2, v, t, rot);
    FullTurnFacts(e3, v, t, rot);
    TurnOrder(v, t, StickersOf(e.vertices));
    StickersDetermineColours(e4.vertices, e.vertices);
  }

  /**
    A whole turn leaves alone every vertex of a sub-cube outside the
    turning layer and of the layer's axis sub-cube.
  */
  lemma FullTurnKeeps(e: State, v: Variant, t: Turn, rot: Rotation)
    requires Consistent(e) && e.rotateCmd == 0
    ensures var r := FullTurn(e, v, t, rot);
      forall k :: 0 <= k < VertexCount && (SubCubeOf(k) !in Participants(t) || SubCubeOf(k) == TurnFace(t)) ==>
        r.vertices[k] == e.vertices[k]
  {
    var r := FullTurn(e, v, t, rot);
    var st := StickersOf(e.vertices);
    KeepsAt(e, v, t, rot);
    FullTurnFacts(e, v, t, rot);
    TurnKeeps(v, t, st);
    forall k | 0 <= k < VertexCount && (SubCubeOf(k) !in Participants(t) || SubCubeOf(k) == TurnFace(t))
      ensures r.vertices[k] == e.vertices[k]
    {
      var sl := SlotOf(k);
      assert TurnStickers(v, t, st)[sl.cube] == st[sl.cube];
    }
  }

  /**
    With the program's copies a whole turn also leaves alone the corner
    sub-cubes' vertices on the turning face itself.
  */
  lemma FullTurnKeepsCorners(e: State, t: Turn, rot: Rotation)
    requires Consistent(e) && e.rotateCmd == 0
    ensures var r := FullTurn(e, AsWritten, t, rot);
      forall k :: 0 <= k < VertexCount && 18 <= SubCubeOf(k) && SubCubeOf(k) in Participants(t) && FaceOf(k) == TurnFace(t) ==>
        r.vertices[k] == e.vertices[k]
  {
    var r := FullTurn(e, AsWritten, t, rot);
    var st, st2 := StickersOf(e.vertices), StickersOf(r.vertices);
    KeepsAt(e, AsWritten, t, rot);
    FullTurnFacts(e, AsWritten, t, rot);
    assert st2 == TurnStickers(AsWritten, t, st);
    KeepsCorners(t, st);
    forall k | 0 <= k < VertexCount && 18 <= SubCubeOf(k) && SubCubeOf(k) in Participants(t) && FaceOf(k) == TurnFace(t)
      ensures r.vertices[k] == e.vertices[k]
    {
      assert At(st2, SlotOf(k)) == At(st, SlotOf(k));
    }
  }

  /** After a whole turn a vertex is unchanged exactly when its slot shows the sticker it showed before. */
  lemma KeepsAt(e: State, v: Variant, t: Turn, rot: Rotation)
    requires Consistent(e) && e.rotateCmd == 0
    ensures var r := FullTurn(e, v, t, rot);
      forall k :: 0 <= k < VertexCount ==>
        (r.vertices[k] == e.vertices[k] <==> At(StickersOf(r.vertices), SlotOf(k)) == At(StickersOf(e.vertices), SlotOf(k)))
  {
    var r := FullTurn(e, v, t, rot);
    FullTurnFacts(e, v, t, rot);
    forall k | 0 <= k < VertexCount
      ensures r.vertices[k] == e.vertices[k] <==> At(StickersOf(r.vertices), SlotOf(k)) == At(StickersOf(e.vertices), SlotOf(k))
    {
      VertexShowsSticker(r.vertices, k);
      VertexShowsSticker(e.vertices, k);
    }
  }

  /** The two things that happen to the plugin's state: a rendered frame, or `execCmd` with the value `rand()` returned. */
  datatype Event = Frame | Exec(rnd: nat)

  /** One event applied to the state. */
  function Step(e: State, v: Variant, rot: Rotation, ev: Event): (r: State)
    requires Sized(e)
    ensures Sized(r)
  {
    match ev
    case Frame => PostRenderLayer(e, v, rot)
    case Exec(rnd) => ExecCmd(e, rnd)
  }

  /** The state after a run of events, in order. */
  function Run(e: State, v: Variant, rot: Rotation, evs: seq<Event>): (r: State)
    requires Sized(e)
    ensures Sized(r)
  {
    if evs == [] then e else Step(Run(e, v, rot, evs[..|evs| - 1]), v, rot, evs[|evs| - 1])
  }

  /** Every state a run reaches from a consistent state is consistent. */
  lemma {:induction false} RunKeepsConsistent(e: State, v: Variant, rot: Rotation, evs: seq<Event>)
    requires Consistent(e)
    ensures Consistent(Run(e, v, rot, evs))
  {
    if evs != [] {
      RunKeepsConsistent(e, v, rot, evs[..|evs| - 1]);
      var p := Run(e, v, rot, evs[..|evs| - 1]);
      match evs[|evs| - 1]
      case Frame => FrameKeepsConsistent(p, v, rot);
      case Exec(rnd) => ExecCmdKeepsConsistent(p, rnd);
    }
  }

  /**
    One turn at a time: once a command runs, no event replaces it by
    another; whatever the events, the state either still runs it or went
    idle at some point of the run.
  */
  lemma {:induction false} OneTurnAtATime(e: State, v: Variant, rot: Rotation, evs: seq<Event>)
    requires Sized(e) && e.rotateCmd != 0
    ensures Run(e, v, rot, evs).rotateCmd == e.rotateCmd
      || exists i :: 0 < i <= |evs| && Run(e, v, rot, evs[..i]).rotateCmd == 0
  {
    if evs != [] {
      var front := evs[..|evs| - 1];
      OneTurnAtATime(e, v, rot, front);
      var p := Run(e, v, rot, front);
      if p.rotateCmd == e.rotateCmd {
        if Run(e, v, rot, evs).rotateCmd != e.rotateCmd {
          assert evs[..|evs|] == evs;
        }
      } else {
        var i :| 0 < i <= |front| && Run(e, v, rot, front[..i]).rotateCmd == 0;
        assert front[..i] == evs[..i];
      }
    }
  }
}
