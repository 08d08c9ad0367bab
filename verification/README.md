# Puzzle engine of the hello_xr OpenGL plugin

This project models the core of the 3x3x3 puzzle that the `hello_xr` OpenGL graphics plugin animates in a headset view, and proves properties of it.

## What is modelled

- The reference geometry: the 26 sub-cubes, expanded by the face macros into 936 vertices, and the index buffer that draws them.
- The live vertex array the plugin keeps, with these operations:
  - `rotate_subcube`;
  - the six face turns `rotate_R` … `rotate_B`;
  - `increment_rotate` and `reset`;
  - the two colour routines `copy_subCube_face_colors` and `reset_subCube_colors`;
  - the per-frame dispatcher `postRenderLayer`, and `execCmd`, which starts a random turn.
- The copy of the table into the live array at start-up.
- The choice of colour swapchain format.

The modules follow the program:

| module | what it holds |
|---|---|
| `Geometry` | the header's colours, sub-cube table, face macros and index buffer |
| `Turns` | the six face turns: command numbers, step angles, the nine sub-cubes each turns, the four edge sub-cubes it greys, and its sixteen colour copies. Each copy is related to the geometric quarter turn it should implement |
| `Stickers` | the colours read per (sub-cube, face) slot, and what a completed turn does to them |
| `Plugin` | the plugin's state and each member function. Every C++ loop is a function recursing on the loop index |
| `Engine` | frames and turns over time: the frame count of a turn, what a frame keeps, and the facts every reachable state keeps |
| `Swapchain` | `SelectColorSwapchainFormat` |
| `Wrappers` | `Option` and `Result` |

Outside inputs are parameters:
- The rotation arithmetic of the math library (`XrMatrix4x4f_CreateRotation` and `XrMatrix4x4f_TransformVector3f`) is the parameter `rot`.
- Each value `rand()` returns is the parameter `rnd`.
- The contents of `m_tmpVertices` before the first turn are the parameter `snap` of `Plugin.Initial`.

The turn counter is a function-local `static float`. It is modelled as an integer count of quarter-degrees. Every value it takes is a multiple of 0.25 between -90.25 and 90.25, and all of these are exact in single precision, so the integer count loses nothing.

The program's copy lists leave out four stickers per turn (see "## Findings"). `Turns.Variant` therefore has two values:
- `AsWritten`: the copies the program makes.
- `Corrected`: those copies plus the four missing corner stickers.

Every engine lemma is stated for both variants unless it names one.

### Behaviour worth knowing

- **Frame count.** A quarter turn takes 361 frames. The end-of-turn test at `graphicsplugin_opengl.cpp:401` is strict, so the counter must pass ±90 degrees before `reset` runs. The 361st frame therefore turns the layer once more and then ends the turn.
- **Greying.** When a turn completes, only the four edge sub-cubes of the layer are greyed. The axis sub-cube keeps its colours, and the corner sub-cubes are only partly rewritten by the copies.
- **Reset.** `reset` restores the positions of all 26 sub-cubes from the table.

## Model

| member | source | states |
|---|---|---|
| Swapchain.SelectColorSwapchainFormat | src/tests/hello_xr/graphicsplugin_opengl.cpp:224-243 | The result is the first runtime format, in the runtime's order, that is one of the four supported formats. It fails with the "No runtime swapchain format supported" message exactly when no runtime format is supported |
| Swapchain.RuntimeOrderDecides | src/tests/hello_xr/graphicsplugin_opengl.cpp:235-242 | Any prefix of unsupported formats is skipped. The first supported format wins, even over a preferred one behind it |
| Swapchain.FallbackFirstIsChosen | src/tests/hello_xr/graphicsplugin_opengl.cpp:229-231 | The formats meant only as a fallback are still chosen when the runtime lists them first: [RGBA8, RGB10_A2] selects RGBA8 |
| Geometry.RgbIsInjective | src/tests/hello_xr/geometry.h:14-56 | The named colour constants are pairwise distinct RGB triples, so copying a colour name copies its value |
| Geometry.DecodeIndex | src/tests/hello_xr/geometry.h:76-82 | Every vertex index splits into sub-cube, face and corner, and recombining them gives the index back |
| Geometry.EncodeIndex | src/tests/hello_xr/geometry.h:76-82 | Every (sub-cube, face, corner) triple names a vertex in range, and decoding that vertex gives the triple back |
| Geometry.FaceGeometry | src/tests/hello_xr/geometry.h:63-74 | Each face macro emits six positions in the face's plane. Vertex 3 repeats vertex 0, and together they are exactly the face's four corners |
| Geometry.SubCubeBlock | src/tests/hello_xr/geometry.h:76-82 | The sub-cube macro lays its faces out in the order L, R, B, T, K, F, six vertices each |
| Geometry.ReferenceVertices | src/tests/hello_xr/geometry.h:84-143 | The reference table has 936 vertices, 36 per sub-cube. Its layout is stated by `Geometry.ReferenceLayout` and its colours by `Geometry.ReferenceColors` |
| Geometry.ReferenceLayout | src/tests/hello_xr/geometry.h:84-143 | Vertex (s, f, j) of the reference table is vertex j of face f of row s of the sub-cube table |
| Geometry.ReferenceColors | src/tests/hello_xr/geometry.h:84-143 | Every vertex of the reference table carries the colour its row gives its face |
| Geometry.VisibleFaceCounts | src/tests/hello_xr/geometry.h:85-141 | Axis sub-cubes 0-5 show one colour, edges 6-17 two and corners 18-25 three |
| Geometry.NoOppositeFacesVisible | src/tests/hello_xr/geometry.h:84-143 | No row of the table colours two opposite faces of a sub-cube |
| Geometry.ColourMatchesPosition | src/tests/hello_xr/geometry.h:84-143 | A sub-cube's face is coloured exactly when its box lies one cell from the centre towards that face |
| Geometry.CellsAreDistinct | src/tests/hello_xr/geometry.h:84-143 | No two sub-cubes share a grid cell, and none sits in the hidden centre |
| Geometry.CubeIndices | src/tests/hello_xr/geometry.h:146-335 | The index buffer has 936 entries and entry i is i, so every vertex is drawn once, in table order |
| Geometry.CubeIndicesAreIdentity | src/tests/hello_xr/geometry.h:146-335 | The index buffer has 936 entries, index i names vertex i, and each entry fits in 16 bits |
| Geometry.TrianglesStayOnOneFace | src/tests/hello_xr/geometry.h:146-335 | Every triangle of the index buffer joins the first or the last three vertices of a single face of a single sub-cube |
| Turns.TurnOf | src/tests/hello_xr/graphicsplugin_opengl.cpp:648-661 | A command selects a turn exactly when it is 1..6 |
| Turns.CommandRoundTrip | src/tests/hello_xr/graphicsplugin_opengl.cpp:648-661 | Commands 1..6 and the six turns correspond one to one: decoding a command and encoding the turn gives the command back |
| Turns.Direction | src/tests/hello_xr/graphicsplugin_opengl.cpp:425-644 | Every `rotate_X` passes -1 or +1 to `increment_rotate` |
| Turns.StepAngles | src/tests/hello_xr/graphicsplugin_opengl.cpp:425-644 | Every `rotate_X` rotates by exactly one quarter-degree about exactly one axis. About the turn's axis, the step has the sign of the `dir` that turn passes to `increment_rotate` |
| Turns.StepTurnsAboutTheFaceAxis | src/tests/hello_xr/graphicsplugin_opengl.cpp:425-434 | Each frame of a turn rotates by a quarter-degree about the turning face's axis only. It turns in the same sense as the direction the counter steps in |
| Turns.Participants | src/tests/hello_xr/graphicsplugin_opengl.cpp:425-644 | Each `subcube_indices` array lists nine distinct sub-cubes in 0..25. Which nine is stated by `Turns.ParticipantShape` and `Turns.ParticipantsFormTheLayer` |
| Turns.GreyedEdges | src/tests/hello_xr/graphicsplugin_opengl.cpp:425-644 | Each `rotate_X` greys four sub-cubes, all edge sub-cubes (6..17). `Turns.ParticipantShape` states that they are exactly the layer's edges |
| Turns.ParticipantShape | src/tests/hello_xr/graphicsplugin_opengl.cpp:430-441 | A turn's nine sub-cubes are distinct: its axis sub-cube, four edges and four corners. The four it greys are exactly its edges |
| Turns.ParticipantsFormTheLayer | src/tests/hello_xr/graphicsplugin_opengl.cpp:425-430 | A sub-cube is among a turn's nine exactly when its cell lies in the turning layer |
| Turns.ParticipantsAreTheVisibleSubCubes | src/tests/hello_xr/graphicsplugin_opengl.cpp:425-430 | A sub-cube is among a turn's nine exactly when the solved table colours its face on the turning side |
| Turns.ParticipationCounts | src/tests/hello_xr/graphicsplugin_opengl.cpp:425-644 | Across the six turns, each sub-cube is listed as often as it has coloured faces: axis once, edge twice, corner three times |
| Turns.ColourCounts | src/tests/hello_xr/geometry.h:84-143 | Each of the six face colours appears on exactly nine sub-cubes of the table |
| Turns.QuarterTurnOrder | src/tests/hello_xr/graphicsplugin_opengl.cpp:425-427 | Four quarter turns bring every grid point back. A point is fixed by one, or by two, exactly when it lies on the turn's axis |
| Turns.SlotBeforeOrder | src/tests/hello_xr/graphicsplugin_opengl.cpp:425-427 | Following the quarter turn back four times returns every (sub-cube, face) slot to itself |
| Turns.Recipe | src/tests/hello_xr/graphicsplugin_opengl.cpp:425-644 | Each `rotate_X` makes sixteen colour copies, in program order. What they do is stated by `Turns.RecipeFacts`, `Turns.CopiesPermute` and `Turns.SourceOfCopies` |
| Turns.RecipeFacts | src/tests/hello_xr/graphicsplugin_opengl.cpp:442-459 | Each of a turn's sixteen copies carries a sticker to the slot the quarter turn moves it to. No slot is written twice. Every slot the quarter turn moves, except the four corner stickers on the turning face, is written |
| Turns.CornerFacts | src/tests/hello_xr/graphicsplugin_opengl.cpp:451-459 | The four added corner copies also follow the quarter turn, write distinct slots, and write exactly the moving slots the program leaves out |
| Turns.CopiesFollowTheTurn | src/tests/hello_xr/graphicsplugin_opengl.cpp:442-459 | For either variant, every copy follows the quarter turn, destinations are distinct, and every slot to be written is written |
| Turns.SourceOfCopies | src/tests/hello_xr/graphicsplugin_opengl.cpp:442-459 | The last copy writing a slot reads the slot the quarter turn brings there. No copy writes a slot the turn does not move |
| Turns.CopiesPermute | src/tests/hello_xr/graphicsplugin_opengl.cpp:442-459 | The copies' sources and destinations are the same multiset of slots, so the copies permute the colours they move |
| Turns.SourcesAreDestinations | src/tests/hello_xr/graphicsplugin_opengl.cpp:442-459 | For any copy list that carries out a turn, every slot read is also a slot written |
| Stickers.OpposesIsOppositeFaces | src/tests/hello_xr/geometry.h:85 | Two colours oppose exactly when they are the solved colours of opposite faces |
| Stickers.SolvedIsWhole | src/tests/hello_xr/geometry.h:84-143 | In the solved puzzle every inside face is Grey and no sub-cube shows opposite colours |
| Stickers.TurnKeepsHiddenGrey | src/tests/hello_xr/graphicsplugin_opengl.cpp:434-460 | A completed turn keeps every inside face Grey |
| Stickers.TurnOrder | src/tests/hello_xr/graphicsplugin_opengl.cpp:434-460 | Four completed turns of one face restore every sticker colour, for both variants |
| Stickers.TurnKeeps | src/tests/hello_xr/graphicsplugin_opengl.cpp:430-460 | A completed turn leaves every sub-cube outside the layer untouched, and the layer's axis sub-cube too. With the program's copies, so are the corner stickers on the turning face |
| Stickers.KeepsCorners | src/tests/hello_xr/graphicsplugin_opengl.cpp:451-459 | The program's copies never rewrite the turning-face sticker of a corner sub-cube |
| Stickers.AsWrittenSplitsCorner | src/tests/hello_xr/graphicsplugin_opengl.cpp:451-459 | From solved, the program's F turn then R turn leave corner 23 with Blue on its right face and Green on its front face. Those are opposite colours, which no physical puzzle shows |
| Stickers.CorrectedKeepsSubCubesWhole | src/tests/hello_xr/graphicsplugin_opengl.cpp:442-459 | With the corrected copies, a turn of a puzzle with Grey insides and no sub-cube showing opposite colours leaves no sub-cube showing opposite colours |
| Stickers.CorrectedKeepsCornerWhole | src/tests/hello_xr/graphicsplugin_opengl.cpp:442-459 | The corrected F then R turns keep the puzzle whole: insides Grey, no opposite colours on any sub-cube |
| Plugin.RotateLoop | src/tests/hello_xr/graphicsplugin_opengl.cpp:377-384 | From step i on, the loop rotates the positions of vertices base+i .. base+35 and leaves every other vertex as it was |
| Plugin.RotateSubCube | src/tests/hello_xr/graphicsplugin_opengl.cpp:366-385 | Exactly the 36 vertices of the given sub-cube get their position rotated. Colours and all other vertices stay |
| Plugin.RotateLayer | src/tests/hello_xr/graphicsplugin_opengl.cpp:430-433 | Rotating the listed distinct sub-cubes one by one rotates exactly their vertices, once each |
| Plugin.LayerLoop | src/tests/hello_xr/graphicsplugin_opengl.cpp:430-433 | The loop over a turn's nine sub-cubes produces one layer step of the turn |
| Plugin.Reset | src/tests/hello_xr/graphicsplugin_opengl.cpp:387-394 | The command is cleared and every vertex is moved back to its table position with its colour kept. The snapshot takes the colours, and the counter is untouched |
| Plugin.IncrementRotate | src/tests/hello_xr/graphicsplugin_opengl.cpp:395-408 | The turn ends exactly when the step takes the counter past -90 degrees going down or +90 going up; then the state is `reset` with the counter 0. Otherwise only the counter moves, one quarter-degree in dir's sense |
| Plugin.CopyFace | src/tests/hello_xr/graphicsplugin_opengl.cpp:410-416 | Exactly the six vertices of the destination face change. Each takes the snapshot colour of the same-corner vertex of the source face |
| Plugin.GreySubCube | src/tests/hello_xr/graphicsplugin_opengl.cpp:418-423 | Exactly the 36 vertices of the sub-cube turn Grey. Positions and the other vertices stay |
| Plugin.GreyAll | src/tests/hello_xr/graphicsplugin_opengl.cpp:438-441 | The listed sub-cubes, and only those, turn Grey |
| Plugin.ApplyCopies | src/tests/hello_xr/graphicsplugin_opengl.cpp:442-459 | A vertex of a written face shows the snapshot colour read by the last copy writing it. Every other vertex is kept |
| Plugin.Complete | src/tests/hello_xr/graphicsplugin_opengl.cpp:434-460 | After a completed turn each vertex shows one of three colours. A copied face shows its last copy's source colour. Otherwise a greyed edge shows Grey. Otherwise the colour is kept |
| Plugin.RotateFace | src/tests/hello_xr/graphicsplugin_opengl.cpp:425-461 | When idle nothing changes. Otherwise the command either stays or is cleared, never replaced |
| Plugin.PostRenderLayer | src/tests/hello_xr/graphicsplugin_opengl.cpp:648-662 | A command outside 1..6 does nothing, and a frame never switches to another command |
| Plugin.LoadLoop | src/tests/hello_xr/graphicsplugin_opengl.cpp:178-180 | From index i on, the start-up loop copies the table into the live array |
| Plugin.Initial | src/tests/hello_xr/graphicsplugin_opengl.cpp:178-180 | Whatever the array held, after start-up it holds the reference table; the plugin is idle with counter 0 |
| Plugin.ExecCmd | src/tests/hello_xr/graphicsplugin_opengl.cpp:667-671 | When idle, the command becomes the turn `rnd % 6 + 1` selects, always one of 1..6. While a turn runs, `execCmd` changes nothing, so a running turn is never replaced |
| Engine.ResetColours | src/tests/hello_xr/graphicsplugin_opengl.cpp:387-394 | After `reset` the snapshot equals the colours, and these are the colours from before |
| Engine.TickFrame | src/tests/hello_xr/graphicsplugin_opengl.cpp:425-436 | A frame that does not end the turn rotates exactly the layer's vertices by one step and changes no colour. The snapshot and command stay, and the counter steps in the turn's direction |
| Engine.EndingFrame | src/tests/hello_xr/graphicsplugin_opengl.cpp:425-460 | The frame that ends a turn is `reset` with the counter cleared, followed by the greying and the copies from the snapshot `reset` took |
| Engine.TickCompletes | src/tests/hello_xr/graphicsplugin_opengl.cpp:425-461 | The frame that ends a turn leaves it idle with counter 0 and every vertex at its table position. The snapshot holds the starting colours, and the stickers are those of the completed turn |
| Engine.CompleteTurnsStickers | src/tests/hello_xr/graphicsplugin_opengl.cpp:434-460 | Greying plus copying, from a snapshot of the same colours, keeps every face a single colour and moves no vertex. It shows the sticker state of the completed turn |
| Engine.TurnRuns | src/tests/hello_xr/graphicsplugin_opengl.cpp:395-408 | During the first 360 frames of a turn the command stays and the counter moves n quarter-degrees. Neither colours nor the snapshot change |
| Engine.TurnTakes361Frames | src/tests/hello_xr/graphicsplugin_opengl.cpp:395-408 | A turn runs through 360 frames and ends on the 361st, in the idle, home, turned-colours state |
| Engine.InitialIsSolved | src/tests/hello_xr/graphicsplugin_opengl.cpp:178-180 | Start-up leaves a consistent, idle puzzle showing the solved colours |
| Engine.ReferenceIsSolved | src/tests/hello_xr/geometry.h:84-143 | The reference table draws every face in one colour and shows the solved sticker state |
| Engine.ExecCmdKeepsConsistent | src/tests/hello_xr/graphicsplugin_opengl.cpp:667-671 | `execCmd` keeps the reachable-state invariant, whatever `rand()` returns |
| Engine.FrameKeepsConsistent | src/tests/hello_xr/graphicsplugin_opengl.cpp:648-662 | A frame keeps the reachable-state invariant: sizes, command in 0..6, uniform faces, Grey insides, home positions when idle, counter in range while running |
| Engine.RunKeepsConsistent | src/tests/hello_xr/graphicsplugin_opengl.cpp:648-671 | Every state reached by any sequence of frames and `execCmd` calls is consistent |
| Engine.OneTurnAtATime | src/tests/hello_xr/graphicsplugin_opengl.cpp:667-671 | Once a command runs, no sequence of events replaces it. The state still runs it, or went idle at some point |
| Engine.FullTurnFacts | src/tests/hello_xr/graphicsplugin_opengl.cpp:425-461 | `execCmd` plus 361 frames from a consistent idle state ends consistent and idle, showing the turned stickers |
| Engine.FourTurnsRestore | src/tests/hello_xr/graphicsplugin_opengl.cpp:425-461 | Four whole turns of the same face restore the vertex array exactly, positions and colours |
| Engine.FullTurnKeeps | src/tests/hello_xr/graphicsplugin_opengl.cpp:425-461 | A whole turn leaves every vertex of the sub-cubes outside the layer, and of its axis sub-cube, unchanged |
| Engine.FullTurnKeepsCorners | src/tests/hello_xr/graphicsplugin_opengl.cpp:451-459 | With the program's copies a whole turn also leaves the corner sub-cubes' turning-face vertices unchanged |

## Left out

- Vertex positions are exact reals, not single-precision floats. The table's `OFF_MINOR` and `SCALE_FACTOR` arithmetic is exact, and so is Orange's green component, written `0.64` where the header has the float `0.64f`. No lemma depends on float rounding.
- The rotation matrix and vector transform of the math library are not part of this model. `rotate_subcube` receives them as the uninterpreted parameter `rot`, so no lemma claims what a rotated position is. The lemmas state which vertices are rotated, and by which angles. The positions after a turn are exact because `reset` restores them from the table.
- `rand()` is not modelled. Each value it returns is the parameter `rnd` of `Plugin.ExecCmd`, or of an `Engine.Exec` event.
- The `glBufferSubData` upload at the end of `postRenderLayer`, the rendering (`RenderView`, shaders, buffers, swapchain images, depth buffers) and the platform bindings are left out. None of them reads or writes the puzzle state apart from the upload, which only reads it.
- `m_tmpVertices` is modelled by its colours only (`State.snapshot`). Its positions are never read or written.
- The logging block of `rotate_subcube` is compiled out (`#if 0`) and is left out, as is the unused first cube table of the header (lines 30-51).
- The `dir == 0` branch of `increment_rotate` is modelled: it steps up and never ends a turn. No caller passes 0.
- Plugin.RotateFace: its contract states only the idle case and that the command is never replaced. The frame itself is stated by `Engine.TickFrame`, `Engine.EndingFrame` and `Engine.TickCompletes`.
- Plugin.PostRenderLayer: the same as `Plugin.RotateFace`. What a frame does is stated by the `Engine` lemmas named there.
- `GetSupportedSwapchainSampleCount` and the other plumbing methods of the plugin are not part of this model.

## Findings

| source | as written | input that shows it | evidently intended | confidence | as-written member | corrected member |
|---|---|---|---|---|---|---|
| src/tests/hello_xr/graphicsplugin_opengl.cpp:451-459 | Each `rotate_X` copies two stickers of each of its four corner sub-cubes, but never the sticker on the turning face itself. For R, face 1 of corners 22-25 is never written; likewise for the other five turns. Those four stickers stay where they were while the rest of the corner moves | From solved, run the F turn then the R turn. Corner 23 then shows Blue (the top colour) on its right face and Green (the bottom colour) on its front face | Each corner's turning-face sticker cycles with the corner, as the edges' do (`copy_subCube_face_colors(22, 1, 24, 1)` and so on, four per turn), so every sub-cube moves whole | not executed | Stickers.AsWrittenSplitsCorner | Stickers.CorrectedKeepsSubCubesWhole |
