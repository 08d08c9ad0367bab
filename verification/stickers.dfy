/**
  The colour state of the puzzle read per (sub-cube, face) slot, and what a
  completed turn does to it: every slot the turn's copies write takes the
  colour of the slot the quarter turn carries onto it, the greyed edge
  sub-cubes lose every other face to Grey, and all else is kept.

  `AsWritten` is the copy list the program makes; `Corrected` adds the four
  corner stickers of the turning face it leaves out.
*/
module Stickers {
  import opened Geometry
  import opened Turns

  /** One colour per slot: `st[s][f]` is face `f` of sub-cube `s`. */
  type Stickers = seq<seq<Color>>

  predicate WellFormed(st: Stickers) {
    |st| == SubCubeCount && forall s :: 0 <= s < |st| ==> |st[s]| == 6
  }

  function At(st: Stickers, sl: Slot): Color
    requires WellFormed(st) && sl.Valid()
  {
    st[sl.cube][sl.face]
  }

  /** The solved puzzle: the colours of the sub-cube table. */
  function Solved(): (st: Stickers)
    ensures WellFormed(st)
    ensures forall s, f :: 0 <= s < SubCubeCount && 0 <= f < 6 ==> st[s][f] == RefColor(s, f)
  {
    seq(SubCubeCount, s requires 0 <= s < SubCubeCount => ColorsAt(s))
  }

  /** The colour slot `sl` shows after turn `t` of variant `v` completes. */
  function TurnedColour(v: Variant, t: Turn, st: Stickers, sl: Slot): Color
    requires WellFormed(st) && sl.Valid()
  {
    if Written(v, t, sl) then At(st, SlotBefore(t, sl))
    else if sl.cube in GreyedEdges(t) then Grey
    else At(st, sl)
  }

  /** The colour state after turn `t` of variant `v` completes. */
  function TurnStickers(v: Variant, t: Turn, st: Stickers): (r: Stickers)
    requires WellFormed(st)
    ensures WellFormed(r)
    ensures forall s, f :: 0 <= s < SubCubeCount && 0 <= f < 6 ==> r[s][f] == TurnedColour(v, t, st, Slot(s, f))
  {
    seq(SubCubeCount, s requires 0 <= s < SubCubeCount =>
      seq(6, f requires 0 <= f < 6 => TurnedColour(v, t, st, Slot(s, f))))
  }

  /** Faces on the inside of the puzzle are Grey. */
  predicate HiddenGrey(st: Stickers)
    requires WellFormed(st)
  {
    forall s, f :: 0 <= s < SubCubeCount && 0 <= f < 6 && !Exposed(CellAt(s), f) ==> st[s][f] == Grey
  }

  /** `a` and `b` are the solved colours of two opposite faces: White and Yellow, Green and Blue, Orange and Red. */
  predicate Opposes(a: Color, b: Color) {
    (a == White && b == Yellow) || (a == Yellow && b == White)
    || (a == Green && b == Blue) || (a == Blue && b == Green)
    || (a == Orange && b == Red) || (a == Red && b == Orange)
  }

  /** Exactly the solved colours of opposite faces oppose each other. */
  lemma OpposesIsOppositeFaces(a: Color, b: Color)
    ensures Opposes(a, b) <==> exists f :: 0 <= f < 6 && a == SolvedColor(f) && b == SolvedColor(OppositeFace(f))
  {
    if Opposes(a, b) {
      var f := if a == White then 0 else if a == Yellow then 1 else if a == Green then 2
        else if a == Blue then 3 else if a == Orange then 4 else 5;
      assert a == SolvedColor(f) && b == SolvedColor(OppositeFace(f));
    }
  }

  /** No sub-cube shows the colours of two opposite faces: a state a physical puzzle can be in has none. */
  predicate NoOppositeColours(st: Stickers)
    requires WellFormed(st)
  {
    forall s, f, g :: 0 <= s < SubCubeCount && 0 <= f < 6 && 0 <= g < 6 ==> !Opposes(st[s][f], st[s][g])
  }

  /** The solved puzzle has its insides Grey and no sub-cube with opposite colours. */
  lemma SolvedIsWhole()
    ensures HiddenGrey(Solved()) && NoOppositeColours(Solved())
  {
    var st := Solved();
    forall s, f | 0 <= s < SubCubeCount && 0 <= f < 6 && !Exposed(CellAt(s), f) ensures st[s][f] == Grey {
      ExposedIsVisible(s, f);
    }
    SolvedFacesCarryTheirFaceColour();
    NoOppositeFacesVisible();
    forall s, f, g | 0 <= s < SubCubeCount && 0 <= f < 6 && 0 <= g < 6 ensures !Opposes(st[s][f], st[s][g]) {
      FaceCases(f);
      FaceCases(g);
    }
  }

  /** The four greyed edge sub-cubes of a turn move with it, and their outside faces are all written. */
  lemma GreyedEdgesMove(v: Variant, t: Turn, s: int, f: int)
    requires s in GreyedEdges(t) && 0 <= f < 6
    ensures 0 <= s < SubCubeCount
    ensures Exposed(CellAt(s), f) ==> Written(v, t, Slot(s, f))
  {
    match t
    case R =>
    case L =>
    case U =>
    case D =>
    case F =>
    case B =>
  }

  /** A completed turn keeps the inside of the puzzle Grey. */
  lemma TurnKeepsHiddenGrey(v: Variant, t: Turn, st: Stickers)
    requires WellFormed(st) && HiddenGrey(st)
    ensures HiddenGrey(TurnStickers(v, t, st))
  {}

  /**
    Four completed turns of the same face restore every colour, for the
    program's copies as for the corrected ones.
  */
  lemma TurnOrder(v: Variant, t: Turn, st: Stickers)
    requires WellFormed(st) && HiddenGrey(st)
    ensures TurnStickers(v, t, TurnStickers(v, t, TurnStickers(v, t, TurnStickers(v, t, st)))) == st
  {
    var s1 := TurnStickers(v, t, st);
    var s2 := TurnStickers(v, t, s1);
    var s3 := TurnStickers(v, t, s2);
    var s4 := TurnStickers(v, t, s3);
    forall s, f | 0 <= s < SubCubeCount && 0 <= f < 6 ensures s4[s][f] == st[s][f] {
      SlotOrder(v, t, st, Slot(s, f));
    }
    forall s | 0 <= s < SubCubeCount ensures s4[s] == st[s] {}
  }

  lemma SlotOrder(v: Variant, t: Turn, st: Stickers, sl: Slot)
    requires WellFormed(st) && HiddenGrey(st) && sl.Valid()
    ensures At(TurnStickers(v, t, TurnStickers(v, t, TurnStickers(v, t, TurnStickers(v, t, st)))), sl) == At(st, sl)
  {
    if Written(v, t, sl) {
      WrittenSlotOrder(v, t, st, sl);
    } else if sl.cube in GreyedEdges(t) {
      GreyedEdgesMove(v, t, sl.cube, sl.face);
      GreySlotOrder(v, t, st, sl);
    } else {
      KeptSlotOrder(v, t, st, sl);
    }
  }

  /** A written slot takes the colour of the slot the quarter turn brings there. */
  lemma WrittenStep(v: Variant, t: Turn, st: Stickers, sl: Slot)
    requires WellFormed(st) && Written(v, t, sl)
    ensures At(TurnStickers(v, t, st), sl) == At(st, SlotBefore(t, sl))
  {}

  /** A written slot comes back after four turns: its colour goes once round the cycle of `SlotBefore`. */
  lemma WrittenSlotOrder(v: Variant, t: Turn, st: Stickers, sl: Slot)
    requires WellFormed(st) && Written(v, t, sl)
    ensures At(TurnStickers(v, t, TurnStickers(v, t, TurnStickers(v, t, TurnStickers(v, t, st)))), sl) == At(st, sl)
  {
    var s1 := TurnStickers(v, t, st);
    var s2 := TurnStickers(v, t, s1);
    var s3 := TurnStickers(v, t, s2);
    var b1 := SlotBefore(t, sl);
    var b2 := SlotBefore(t, b1);
    var b3 := SlotBefore(t, b2);
    WrittenBefore(v, t, sl);
    WrittenBefore(v, t, b1);
    WrittenBefore(v, t, b2);
    SlotBeforeOrder(t, sl);
    WrittenStep(v, t, s3, sl);
    WrittenStep(v, t, s2, b1);
    WrittenStep(v, t, s1, b2);
    WrittenStep(v, t, st, b3);
  }

  /** A hidden face of a greyed sub-cube is Grey before and after any number of turns. */
  lemma GreySlotOrder(v: Variant, t: Turn, st: Stickers, sl: Slot)
    requires WellFormed(st) && HiddenGrey(st) && sl.Valid()
    requires !Written(v, t, sl) && sl.cube in GreyedEdges(t) && !Exposed(CellAt(sl.cube), sl.face)
    ensures At(TurnStickers(v, t, TurnStickers(v, t, TurnStickers(v, t, TurnStickers(v, t, st)))), sl) == At(st, sl)
  {
    var s1 := TurnStickers(v, t, st);
    var s2 := TurnStickers(v, t, s1);
    var s3 := TurnStickers(v, t, s2);
    assert At(s3, sl) == Grey;
  }

  /** A slot neither written nor greyed keeps its colour through every turn. */
  lemma KeptSlotOrder(v: Variant, t: Turn, st: Stickers, sl: Slot)
    requires WellFormed(st) && sl.Valid() && !Written(v, t, sl) && sl.cube !in GreyedEdges(t)
    ensures At(TurnStickers(v, t, TurnStickers(v, t, TurnStickers(v, t, TurnStickers(v, t, st)))), sl) == At(st, sl)
  {
    var s1 := TurnStickers(v, t, st);
    var s2 := TurnStickers(v, t, s1);
    var s3 := TurnStickers(v, t, s2);
    assert At(s3, sl) == At(s2, sl) == At(s1, sl) == At(st, sl);
  }

  /**
    With the corrected copies a turn moves whole sub-cubes: every outside
    face of a moving sub-cube takes its colour from one and the same
    sub-cube, so no sub-cube ever shows opposite colours.
  */
  lemma CorrectedKeepsSubCubesWhole(t: Turn, st: Stickers)
    requires WellFormed(st) && HiddenGrey(st) && NoOppositeColours(st)
    ensures NoOppositeColours(TurnStickers(Corrected, t, st))
  {
    var r := TurnStickers(Corrected, t, st);
    forall s, f, g | 0 <= s < SubCubeCount && 0 <= f < 6 && 0 <= g < 6 ensures !Opposes(r[s][f], r[s][g]) {
      WholeSubCube(t, st, s, f, g);
    }
  }

  lemma WholeSubCube(t: Turn, st: Stickers, s: int, f: int, g: int)
    requires WellFormed(st) && HiddenGrey(st) && NoOppositeColours(st)
    requires 0 <= s < SubCubeCount && 0 <= f < 6 && 0 <= g < 6
    ensures !Opposes(TurnStickers(Corrected, t, st)[s][f], TurnStickers(Corrected, t, st)[s][g])
  {
    if Exposed(CellAt(s), TurnFace(t)) && !OnAxis(CellAt(s), TurnAxis(t)) {
      MovingSubCubeWhole(t, st, s, f, g);
    } else {
      NotMovingIsKept(Corrected, t, s, f);
      NotMovingIsKept(Corrected, t, s, g);
    }
  }

  /** A sub-cube the corrected turn moves takes all its colours from one sub-cube, or greys them. */
  lemma MovingSubCubeWhole(t: Turn, st: Stickers, s: int, f: int, g: int)
    requires WellFormed(st) && HiddenGrey(st) && NoOppositeColours(st)
    requires 0 <= s < SubCubeCount && 0 <= f < 6 && 0 <= g < 6
    requires Exposed(CellAt(s), TurnFace(t)) && !OnAxis(CellAt(s), TurnAxis(t))
    ensures !Opposes(TurnStickers(Corrected, t, st)[s][f], TurnStickers(Corrected, t, st)[s][g])
  {
    var a, b := SlotBefore(t, Slot(s, f)), SlotBefore(t, Slot(s, g));
    assert a.cube == b.cube;
    WholeFace(t, st, s, f);
    WholeFace(t, st, s, g);
    assert !Opposes(st[a.cube][a.face], st[a.cube][b.face]);
  }

  /**
    A face of a moving sub-cube, after a corrected turn, is Grey or the
    colour of the matching face of the sub-cube the turn carries there.
  */
  lemma WholeFace(t: Turn, st: Stickers, s: int, f: int)
    requires WellFormed(st) && HiddenGrey(st)
    requires 0 <= s < SubCubeCount && 0 <= f < 6
    requires Exposed(CellAt(s), TurnFace(t)) && !OnAxis(CellAt(s), TurnAxis(t))
    ensures TurnStickers(Corrected, t, st)[s][f] == Grey
         || TurnStickers(Corrected, t, st)[s][f] == At(st, SlotBefore(t, Slot(s, f)))
  {}

  /** A sub-cube outside the turning layer, or on its axis, has no slot written and is not greyed. */
  lemma NotMovingIsKept(v: Variant, t: Turn, s: int, f: int)
    requires 0 <= s < SubCubeCount && 0 <= f < 6
    requires !(Exposed(CellAt(s), TurnFace(t)) && !OnAxis(CellAt(s), TurnAxis(t)))
    ensures !Written(v, t, Slot(s, f)) && s !in GreyedEdges(t)
  {
    if s in GreyedEdges(t) {
      GreyedEdgeCell(t, s);
    }
  }

  /** The greyed edges lie in the turning layer, off its axis. */
  lemma GreyedEdgeCell(t: Turn, s: int)
    requires s in GreyedEdges(t)
    ensures 0 <= s < SubCubeCount && Exposed(CellAt(s), TurnFace(t)) && !OnAxis(CellAt(s), TurnAxis(t))
  {
    match t
    case R =>
    case L =>
    case U =>
    case D =>
    case F =>
    case B =>
  }

  /**
    What a completed turn leaves alone: the sub-cubes outside the turning
    layer and its axis sub-cube keep every colour, and with the program's
    copies so do the four corner stickers of the turning face.
  */
  lemma TurnKeeps(v: Variant, t: Turn, st: Stickers)
    requires WellFormed(st)
    ensures forall s :: 0 <= s < SubCubeCount && s !in Participants(t) ==> TurnStickers(v, t, st)[s] == st[s]
    ensures TurnStickers(v, t, st)[TurnFace(t)] == st[TurnFace(t)]
    ensures forall s :: 18 <= s < SubCubeCount && s in Participants(t) ==>
      TurnStickers(AsWritten, t, st)[s][TurnFace(t)] == st[s][TurnFace(t)]
  {
    KeepsOutsideLayer(v, t, st);
    AxisCell(t);
    KeepsSubCube(v, t, st, TurnFace(t));
    KeepsCorners(t, st);
  }

  /** Sub-cubes outside the turning layer keep all their colours. */
  lemma KeepsOutsideLayer(v: Variant, t: Turn, st: Stickers)
    requires WellFormed(st)
    ensures forall s :: 0 <= s < SubCubeCount && s !in Participants(t) ==> TurnStickers(v, t, st)[s] == st[s]
  {
    forall s | 0 <= s < SubCubeCount && s !in Participants(t) ensures TurnStickers(v, t, st)[s] == st[s] {
      KeepsSubCube(v, t, st, s);
    }
  }

  /** The program never rewrites the turning face's side of a corner sub-cube. */
  lemma KeepsCorners(t: Turn, st: Stickers)
    requires WellFormed(st)
    ensures forall s :: 18 <= s < SubCubeCount && s in Participants(t) ==>
      TurnStickers(AsWritten, t, st)[s][TurnFace(t)] == st[s][TurnFace(t)]
  {
    forall s | 18 <= s < SubCubeCount && s in Participants(t)
      ensures TurnStickers(AsWritten, t, st)[s][TurnFace(t)] == st[s][TurnFace(t)]
    {
      KeepsCorner(t, st, s);
    }
  }

  /** The turning-face sticker of one corner sub-cube: neither written nor greyed, so kept. */
  lemma KeepsCorner(t: Turn, st: Stickers, s: int)
    requires WellFormed(st) && 18 <= s < SubCubeCount
    ensures TurnStickers(AsWritten, t, st)[s][TurnFace(t)] == st[s][TurnFace(t)]
  {
    CornerCells(t, s);
    assert !Written(AsWritten, t, Slot(s, TurnFace(t)));
  }

  /** A sub-cube outside the turning layer, or on its axis, keeps every colour. */
  lemma KeepsSubCube(v: Variant, t: Turn, st: Stickers, s: int)
    requires WellFormed(st) && 0 <= s < SubCubeCount
    requires s !in Participants(t) || OnAxis(CellAt(s), TurnAxis(t))
    ensures TurnStickers(v, t, st)[s] == st[s]
  {
    var r := TurnStickers(v, t, st);
    if s !in Participants(t) {
      OutsideLayer(t, s);
    }
    forall f | 0 <= f < 6 ensures r[s][f] == st[s][f] {
      NotMovingIsKept(v, t, s, f);
    }
  }

  /** A sub-cube the turn does not list has no outside face on the turning face. */
  lemma OutsideLayer(t: Turn, s: int)
    requires 0 <= s < SubCubeCount && s !in Participants(t)
    ensures !Exposed(CellAt(s), TurnFace(t))
  {
    ParticipantsFormTheLayer(t);
    match t
    case R =>
    case L =>
    case U =>
    case D =>
    case F =>
    case B =>
  }

  /** The axis sub-cube of a turn sits on the turn's axis. */
  lemma AxisCell(t: Turn)
    ensures OnAxis(CellAt(TurnFace(t)), TurnAxis(t))
  {
    match t
    case R =>
    case L =>
    case U =>
    case D =>
    case F =>
    case B =>
  }

  /** Sub-cubes 18..25 of the turning layer are corners and are not greyed. */
  lemma CornerCells(t: Turn, s: int)
    requires 18 <= s < SubCubeCount
    ensures CornerCell(CellAt(s)) && s !in GreyedEdges(t)
  {
    SubCubeCases(s);
  }

  /**
    The program's copies split sub-cubes: from the solved puzzle, a front
    turn and then a right turn leave corner sub-cube 23 showing Blue (the
    top colour) on its right face and Green (the bottom colour) on its
    front face.
  */
  lemma AsWrittenSplitsCorner()
    ensures var st := TurnStickers(AsWritten, R, TurnStickers(AsWritten, F, Solved()));
      st[23][1] == Blue && st[23][5] == Green && !NoOppositeColours(st)
  {
    var s0 := Solved();
    var s1 := TurnStickers(AsWritten, F, s0);
    var s2 := TurnStickers(AsWritten, R, s1);
    FrontTurnCarries();
    RightTurnCarries();
    CornerSlots();
    assert s1[23][1] == TurnedColour(AsWritten, F, s0, Slot(23, 1)) == s0[25][3];
    assert s2[23][1] == TurnedColour(AsWritten, R, s1, Slot(23, 1)) == s1[23][1];
    assert s1[22][2] == TurnedColour(AsWritten, F, s0, Slot(22, 2)) == s0[22][2];
    assert s2[23][5] == TurnedColour(AsWritten, R, s1, Slot(23, 5)) == s1[22][2];
    assert s0[25][3] == RefColor(25, 3) && s0[22][2] == RefColor(22, 2);
    assert Opposes(s2[23][1], s2[23][5]);
  }

  /** Which of the slots in the counterexample the program's front and right turns write or grey. */
  lemma CornerSlots()
    ensures Written(AsWritten, F, Slot(23, 1)) && !Written(AsWritten, F, Slot(22, 2)) && 22 !in GreyedEdges(F)
    ensures !Written(AsWritten, R, Slot(23, 1)) && Written(AsWritten, R, Slot(23, 5)) && 23 !in GreyedEdges(R)
    ensures RefColor(25, 3) == Blue && RefColor(22, 2) == Green
  {}

  /** The front turn carries the top face of corner 25 onto the right face of corner 23. */
  lemma FrontTurnCarries()
    ensures SlotBefore(F, Slot(23, 1)) == Slot(25, 3)
  {
    RecipeRotatesF();
    CopyIsSlotMap(F, Recipe(F)[12]);
  }

  /** The right turn carries the bottom face of corner 22 onto the front face of corner 23. */
  lemma RightTurnCarries()
    ensures SlotBefore(R, Slot(23, 5)) == Slot(22, 2)
  {
    RecipeRotatesR();
    CopyIsSlotMap(R, Recipe(R)[11]);
  }

  /** The corrected copies keep sub-cube 23 whole through the same two turns. */
  lemma CorrectedKeepsCornerWhole()
    ensures var st := TurnStickers(Corrected, R, TurnStickers(Corrected, F, Solved()));
      HiddenGrey(st) && NoOppositeColours(st)
  {
    var s0 := Solved();
    SolvedIsWhole();
    var s1 := TurnStickers(Corrected, F, s0);
    TurnKeepsHiddenGrey(Corrected, F, s0);
    CorrectedKeepsSubCubesWhole(F, s0);
    TurnKeepsHiddenGrey(Corrected, R, s1);
    CorrectedKeepsSubCubesWhole(R, s1);
  }
}
