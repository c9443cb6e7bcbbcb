# SpriteKit tutorial scenes in Dafny

A Dafny model of the logic in three scenes of a SpriteKit/SwiftUI tutorial
app. Geometry is modelled with exact reals, so rounding never comes into it.

- **Camera scene** (`Camera`, camera.dfy): the world rectangle `didMove(to:)`
  builds from the scene size. The player and camera start at its centre.
  Points are clamped into the world, and the camera scale is clamped to
  [0.5, 2.0], including by `zoomIn`/`zoomOut` (×0.85 / ×1.15) and the host
  view's pinch handler. The model computes the x/y ranges
  `updateCameraConstraints` installs on the camera, the follow-player
  constraint that only a focused camera gets, and the three parallax layers
  that `update` moves against the camera.
- **Mini-map** (`MiniMap`, minimap.dfy): `MiniMapMapping`. It fits the world
  rectangle into the mini-map box with one uniform scale and equal margins,
  maps world points (y up) to display points (y down), and has a clamped
  inverse used while dragging. The model also covers the viewport rectangle
  the camera shows and the two grid loops that draw a line every 200 world
  units.
- **Piano keyboard** (`Piano`, piano.dfy): `layoutKeyboard` places the keys,
  fourteen white keys to a screen, with each black key on the boundary after
  the white keys before it. The model covers the content width, the clamped
  horizontal scroll, and `getBlackKeyPosition`. The touch handlers tell a
  drag (more than 8 points of total movement) from a tap. `resolveKeyNode`
  walks from the touched nodes up through their parents to the first node
  whose name contains `key_`.

`Geometry` (geometry.dfy) holds the CoreGraphics values: `CGPoint`, `CGSize`,
and `CGRect` with its standardised `minX`/`maxX`/`width`. It also holds the
0.0001 floor that both scenes put under a divisor, and two arithmetic helper
lemmas. `Wrappers` (wrappers.dfy) holds `Option`.

The scenes are classes whose methods update their fields. Actions
(`SKAction`) are modelled by the end value they move towards: a field such as
`cameraTarget` records where the last animated move is heading. Constraints
(`SKConstraint`) are modelled by the ranges they carry. Loops are proved
against specification functions: `PlaceKeys` against `Placement`, the grid
loops against `GridValue`, and `ResolveKeyNode` against `FirstKey` over the
ancestor chains.

`setCameraPosition` clamps the requested point into the world rectangle
(tutorial/Lesson/Lesson2/CameraScene.swift:199-208). It does not clamp into
the narrower range the camera constraints allow, and it does not snap back to
the player. `SetCameraPosition` follows the code. The range constraint,
which is installed whether or not the camera is focused, and the follow
constraint when it is focused, pull the camera back afterwards. That is not
modelled. `zoomIn` and `zoomOut` are not inverse to each other:
`ZoomInThenOutShrinks` proves that from any scale of at least 0.5/0.85
(about 0.588), one step in and one step out leaves the scale at 0.9775 of its
value. Below 0.5/0.85, zooming in stops at 0.5, so the pair always ends at
0.575 (`ZoomInThenOutNearFloor`): it grows a scale below 0.575 and shrinks one
above it. `getBlackKeyPosition` is never called by
`layoutKeyboard` in the code. It is modelled on its own, and
`BlackKeyBetweenWhiteKeys` relates it to the white keys of the octave.

## Model

| member | source | states |
|---|---|---|
| Camera.InitialWorld | tutorial/Lesson/Lesson2/CameraScene.swift:29 | the world starts at the origin and is at least 2000 × 1500 and at least twice the scene size, and each extent is exactly one of the two |
| Camera.ClampPointToWorld | tutorial/Lesson/Lesson2/CameraScene.swift:167-173 | the result lies in the closed world rectangle; a point already inside is unchanged; a coordinate past an edge lands on that edge |
| Camera.ClampScale | tutorial/Lesson/Lesson2/CameraScene.swift:177 | the clamped scale lies in [0.5, 2.0], is unchanged when already inside, and is the bound it passed otherwise |
| Camera.ConstraintRanges | tutorial/Lesson/Lesson2/CameraScene.swift:113-122 | both camera ranges are centred on the world's centre and are shorter than the world by the visible extent (scene size over the scale floored at 0.0001) |
| Camera.CameraConstraints | tutorial/Lesson/Lesson2/CameraScene.swift:119-129 | the range constraint always comes first with those ranges; the zero-distance follow-player constraint is present exactly when the camera is focused; there are two constraints when focused and one otherwise |
| Camera.InitialRangesNonEmpty | tutorial/Lesson/Lesson2/CameraScene.swift:29-46 | on the world built from the scene size, at that same size, every scale in [0.5, 2] leaves non-empty ranges on both axes, and the starting position (the world's centre) lies in them; after a size change the world is kept, so the ranges can be empty (a 750 × 1334 start rotated to 1334 × 750 at scale 0.5 gives an x range from 1334 down to 666) |
| Camera.RotatedRangesCanBeEmpty | tutorial/Lesson/Lesson2/CameraScene.swift:141-150 | the world is not rebuilt when the size changes: a 750 × 1334 scene turned to 1334 × 750 has, at scale 0.5, an x range whose lower end 1334 exceeds its upper end 666 |
| Camera.ZoomStepsMonotone | tutorial/Lesson/Lesson2/CameraScene.swift:190-196 | from any scale in range, zooming in never enlarges the scale and zooming out never shrinks it |
| Camera.ZoomInThenOutShrinks | tutorial/Lesson/Lesson2/CameraScene.swift:190-196 | the two steps are not inverse: from any scale of at least 0.5/0.85 (about 0.588), zooming in then out leaves 0.9775 of the scale, strictly less |
| Camera.ZoomInThenOutNearFloor | tutorial/Lesson/Lesson2/CameraScene.swift:176-196 | below 0.5/0.85 zooming in stops at 0.5, so zooming in then out always ends at 0.575: it grows a scale below 0.575 and shrinks one above it |
| Camera.Parallax | tutorial/Lesson/Lesson2/CameraScene.swift:230-238 | a layer moving by `factor` sits at minus `factor` times the camera position on both axes (its ordering and linearity are `ParallaxDepthOrder`) |
| Camera.ParallaxDepthOrder | tutorial/Lesson/Lesson2/CameraScene.swift:229-238 | the layers move against the camera, the far layer least and the near layer most (never more than the camera), and each layer's offset is linear in the camera position |
| Camera.CameraScene.constructor | tutorial/Lesson/Lesson2/CameraScene.swift:25-50 | `didMove(to:)`: world from the size, player and camera at its centre, scale 1, focused, constraints installed with non-empty ranges, scene invariant established |
| Camera.CameraScene.UpdateCameraConstraints | tutorial/Lesson/Lesson2/CameraScene.swift:109-130 | the installed constraints are those computed from the world, the size, the camera node's current scale and the focus flag |
| Camera.CameraScene.SetCameraFocus | tutorial/Lesson/Lesson2/CameraScene.swift:136-139 | the flag is set, the follow constraint is present exactly when focusing, the range constraint and everything else are unchanged |
| Camera.CameraScene.DidChangeSize | tutorial/Lesson/Lesson2/CameraScene.swift:141-150 | new size, camera recentred on the player, constraints recomputed for the new size, the world and scales unchanged |
| Camera.CameraScene.MovePlayerToward | tutorial/Lesson/Lesson2/CameraScene.swift:154-159 | the player's move target is the requested point clamped into the world |
| Camera.CameraScene.MovePlayerBy | tutorial/Lesson/Lesson2/CameraScene.swift:162-165 | the move target is the player's position plus the delta, clamped into the world |
| Camera.CameraScene.SetCameraScale | tutorial/Lesson/Lesson2/CameraScene.swift:176-188 | the stored scale is the clamped request; not animated, the camera node takes it at once; animated, an action heading there is started; constraints recomputed; nothing else changes |
| Camera.CameraScene.ZoomIn | tutorial/Lesson/Lesson2/CameraScene.swift:190-192 | the scale becomes the clamp of 0.85 times the scale, never larger than before, animated; the camera node's scale, positions, world, size, focus, move targets and layers are unchanged |
| Camera.CameraScene.ZoomOut | tutorial/Lesson/Lesson2/CameraScene.swift:194-196 | the scale becomes the clamp of 1.15 times the scale, never smaller than before, animated; the camera node's scale, positions, world, size, focus, move targets and layers are unchanged |
| Camera.CameraScene.Pinch | tutorial/Lesson/Lesson2/CameraView.swift:43-50 | the scale is divided by the pinch factor and clamped, applied without animation, so no scale action is started; spreading the fingers never zooms out and pinching never zooms in; positions, world, size, focus, move targets and layers are unchanged |
| Camera.PinchDirection | tutorial/Lesson/Lesson2/CameraView.swift:43-50 | from any scale in range, dividing by a pinch factor of at least 1 and clamping never enlarges the scale, and dividing by one of at most 1 never shrinks it |
| Camera.CameraScene.SetCameraPosition | tutorial/Lesson/Lesson2/CameraScene.swift:199-208 | the camera (or its move action's target) goes to the point clamped into the world rectangle; the other one is unchanged |
| Camera.CameraScene.Update | tutorial/Lesson/Lesson2/CameraScene.swift:223-239 | constraints reinstalled unchanged; the far, mid and near layers sit at −0.05, −0.15 and −0.35 times the camera position |
| MiniMap.MakeMapping | tutorial/Lesson/Lesson2/MiniMapView.swift:94-106 | for a box of non-negative size the content is the world times one non-negative scale, fits the box and is centred in it; the scale is positive exactly when the box has positive area |
| MiniMap.UniformScale | tutorial/Lesson/Lesson2/MiniMapView.swift:97-99 | the scale is positive exactly when the box has positive width and height, and for a box of non-negative size both scaled world extents fit the box |
| MiniMap.ContentFitsBox | tutorial/Lesson/Lesson2/MiniMapView.swift:97-105 | the content rectangle lies in the box with equal margins on opposite sides, and fills the box on at least one axis when the world is at least 0.0001 on both axes |
| MiniMap.WorldToMini | tutorial/Lesson/Lesson2/MiniMapView.swift:109-113 | definition: a world point's offset from the world's min corner, times the scale, measured right from the content's left edge and up from its bottom edge (so y is flipped); its properties are the lemmas below |
| MiniMap.WorldRectToMiniRect | tutorial/Lesson/Lesson2/MiniMapView.swift:115-119 | definition: the rectangle spanned from the mapped top-left corner to the mapped bottom-right corner; `WorldRectIsContentRect` states what it does to the world |
| MiniMap.MiniToWorld | tutorial/Lesson/Lesson2/MiniMapView.swift:122-130 | definition: the point's offset into the content, clamped to the content on each axis, measured from the left and from the bottom, divided by the scale and added to the world's min corner; `MiniToWorldInWorld` and the round trips state its properties |
| MiniMap.WorldCornersFlip | tutorial/Lesson/Lesson2/MiniMapView.swift:109-113 | `worldToMini` flips y: the world's four corners go to the content's corners with bottom and top exchanged |
| MiniMap.WorldRectIsContentRect | tutorial/Lesson/Lesson2/MiniMapView.swift:115-119 | `worldRectToMiniRect` maps the whole world rectangle exactly onto the content rectangle |
| MiniMap.WorldToMiniInContent | tutorial/Lesson/Lesson2/MiniMapView.swift:109-113 | every world point lands inside the content rectangle |
| MiniMap.MiniToWorldInWorld | tutorial/Lesson/Lesson2/MiniMapView.swift:122-130 | wherever the mini-map is touched, `miniToWorld` gives a point of the world |
| MiniMap.WorldRoundTrip | tutorial/Lesson/Lesson2/MiniMapView.swift:109-130 | mapping a world point to the mini-map and back returns it unchanged |
| MiniMap.MiniRoundTrip | tutorial/Lesson/Lesson2/MiniMapView.swift:109-130 | mapping a point of the content rectangle to the world and back returns it unchanged |
| MiniMap.ViewportWorldRect | tutorial/Lesson/Lesson2/MiniMapView.swift:168-174 | the viewport is centred on the camera, and its extents times the floored scale give back the scene size |
| MiniMap.ViewportInsideWorld | tutorial/Lesson/Lesson2/MiniMapView.swift:168-174 | a camera inside the ranges of its constraints shows only world: the viewport lies within the world rectangle |
| MiniMap.FirstGridIndex | tutorial/Lesson/Lesson2/MiniMapView.swift:39 | the first grid index is the smallest k with k·200 at or above the world's minimum |
| MiniMap.VerticalGridLines | tutorial/Lesson/Lesson2/MiniMapView.swift:39-45 | one line per multiple of 200 within the world's x range, all of them, in increasing order, each from the world's bottom to its top, all inside the content |
| MiniMap.HorizontalGridLines | tutorial/Lesson/Lesson2/MiniMapView.swift:46-52 | one line per multiple of 200 within the world's y range, all of them, in increasing order, each from the world's left edge to its right, all inside the content |
| MiniMap.GridPath | tutorial/Lesson/Lesson2/MiniMapView.swift:36-54 | the grid drawn on the canvas: both sets of lines as above |
| Piano.WhiteCount | tutorial/Lesson/MyGame/MyGameSence.swift:51 | the number of white keys never exceeds the number of keys |
| Piano.Sizes | tutorial/Lesson/MyGame/MyGameSence.swift:46-57 | fourteen white keys exactly span the scene's width; for a non-negative scene size a black key is no wider and no taller than a white key |
| Piano.Placement | tutorial/Lesson/MyGame/MyGameSence.swift:63-88 | the node placed at index i carries key i's data and is white exactly when key i is white; white keys are centred in the cell of the white keys before them, black keys on its left edge |
| Piano.NodeName | tutorial/Lesson/MyGame/MyGameSence.swift:106 | definition: "white_key_" or "black_key_" by colour, followed by the key's full name (also line 138); `PlacedKeyIsKeyNode` states that the lookup recognises it |
| Piano.PlaceKeys | tutorial/Lesson/MyGame/MyGameSence.swift:61-90 | the loop places every key as `Placement` says, and the final white index is the number of white keys |
| Piano.WhiteCountGrows | tutorial/Lesson/MyGame/MyGameSence.swift:61-74 | the white index never decreases along the keys and grows by one past each white key |
| Piano.WhiteKeysInOrder | tutorial/Lesson/MyGame/MyGameSence.swift:63-74 | white keys are one white-key width wide and lie left to right in list order without overlapping |
| Piano.WhiteKeyWithinContent | tutorial/Lesson/MyGame/MyGameSence.swift:63-93 | every white key lies between 0 and the content width |
| Piano.WhiteKeyInEveryCell | tutorial/Lesson/MyGame/MyGameSence.swift:63-93 | the white keys fill the content: every cell below the white count has a white key centred in it |
| Piano.BlackKeyOnRightEdge | tutorial/Lesson/MyGame/MyGameSence.swift:75-88 | a black key after a white key, with only black keys between them, sits on that white key's right edge |
| Piano.LeadingBlackKeyAtLeftEdge | tutorial/Lesson/MyGame/MyGameSence.swift:75-88 | a black key with no white key before it sits at the left edge |
| Piano.BlackKeyShape | tutorial/Lesson/MyGame/MyGameSence.swift:54-87 | a black key is 0.6 of a white key wide and 0.7 as tall, raised so that its top edge meets the white keys' top edge |
| Piano.PlacedKeyIsKeyNode | tutorial/Lesson/MyGame/MyGameSence.swift:104-138 | every key node gets a name containing `key_`, whoever its parent, so the key lookup finds it |
| Piano.ClampScroll | tutorial/Lesson/MyGame/MyGameSence.swift:182-185 | the scroll offset lies in [min(0, view − content), 0], is unchanged when already inside, and is the bound it passed otherwise |
| Piano.ClampScrollIdempotent | tutorial/Lesson/MyGame/MyGameSence.swift:182-185 | clamping twice is clamping once, and content no wider than the view pins the offset at 0 |
| Piano.GetBlackKeyPosition | tutorial/Lesson/MyGame/MyGameSence.swift:167-179 | a note outside the sharp-note table gives the left edge |
| Piano.BlackKeyBetweenWhiteKeys | tutorial/Lesson/MyGame/MyGameSence.swift:167-179 | every note in the table is a sharp whose position is the right edge of its natural's white key, counting seven white keys per octave from the C of the base octave |
| Piano.FirstKey | tutorial/Lesson/MyGame/MyGameSence.swift:239-248 | the first node whose name contains `key_`: none exactly when no node has such a name, otherwise a key node preceded only by nodes that are not |
| Piano.FirstKeyAppend | tutorial/Lesson/MyGame/MyGameSence.swift:240-246 | searching two chains in turn finds the first chain's key if it has one, else the second's |
| Piano.ResolveKeyNode | tutorial/Lesson/MyGame/MyGameSence.swift:239-248 | the node returned is the first key node met when walking each touched node and then its parents, the touched nodes taken in order; none when there is none |
| Piano.PianoScene.constructor | tutorial/Lesson/MyGame/MyGameSence.swift:17-22 | `didMove(to:)` with the loaded key list: keys laid out, scroll at 0, no touch in progress |
| Piano.PianoScene.ClampKeyboardX | tutorial/Lesson/MyGame/MyGameSence.swift:182-185 | the keyboard's offset becomes its clamp into the scroll range |
| Piano.PianoScene.LayoutKeyboard | tutorial/Lesson/MyGame/MyGameSence.swift:43-101 | keys replaced by their placements, content width set to the white count times the white-key width, scroll reset to 0 when the content fits the view and clamped otherwise |
| Piano.PianoScene.DidChangeSize | tutorial/Lesson/MyGame/MyGameSence.swift:24-27 | the keyboard is laid out again for the new size: content width from the new white-key width, scroll reset to 0 when the content now fits the view and otherwise the old offset clamped into the new range |
| Piano.PianoScene.TouchesBegan | tutorial/Lesson/MyGame/MyGameSence.swift:188-197 | with a touch: its x is remembered, the drag is cleared, and the tap candidate is the key resolved from the nodes under it; without a touch nothing changes |
| Piano.PianoScene.TouchesMoved | tutorial/Lesson/MyGame/MyGameSence.swift:199-215 | the keyboard scrolls by the movement (clamped) only when the content is wider than the view; the movement's magnitude is added to the total drag; once a drag, it stays one until the touch ends |
| Piano.PianoScene.TouchesEnded | tutorial/Lesson/MyGame/MyGameSence.swift:217-230 | the candidate is tapped exactly when the touch was not a drag (so only after at most 8 points of movement), and is always a key node; the touch state is cleared |
| Piano.PianoScene.TouchesCancelled | tutorial/Lesson/MyGame/MyGameSence.swift:232-236 | the touch state is cleared without a tap |

## Left out

- Views and drawing are not modelled: the SwiftUI views (lesson2.swift, CameraView.swift apart from its pinch handler, the mini-map's `body`), the canvas strokes, the player marker, colours, z-positions, labels and key styling. Of the mini-map canvas, only the grid loops and the mapped rectangles are modelled.
- `MiniMapModel`'s 30 Hz timer copies the scene's state into published properties. It is not modelled. `ViewportWorldRect` takes the copied camera position, the camera node's scale and the scene size as parameters. `moveCamera(to:)` is `SetCameraPosition` with `animated` set.
- Actions (`SKAction`) are modelled by their end value only. Durations, easing and frame-by-frame interpolation are not modelled, and the model never reaches an action's end by itself.
- Constraints (`SKConstraint`) are modelled by the ranges they carry. SpriteKit's constraint solver, which moves the camera into range and onto the player, is not modelled.
- `addBackgroundGrid` only adds decorative tiles, dots and stars to the parallax layers, and is not modelled. The layers are modelled by their positions.
- The paths where the scene has no camera (`camera?`, `guard let cam = camera`) are not modelled, because the camera exists from `didMove(to:)` on.
- The camera scene's `touchesBegan`/`touchesMoved` each call `movePlayerToward` with the touch location, which `MovePlayerToward` covers. Converting a touch into scene coordinates is not modelled.
- Camera.CameraScene.Pinch: the recognizer-state guard and the reset of the recognizer's scale to 1 are not modelled. The method requires a positive pinch factor, which UIKit guarantees.
- `loadKeyData` reads and decodes a bundled JSON file (I/O). The decoded key list is the constructor's parameter. A failed load leaves the list empty, which that parameter also covers.
- Hit-testing (`nodes(at:)`) and `touches.first` are inputs: a list of nodes and an optional point. Scene nodes are modelled as values that hold their parent chain, so a chain is always finite.
- `touchesEnded` runs a press animation on the tapped key and prints its name. `TouchesEnded` returns the tapped key node instead.
- MiniMap.MiniToWorld requires a non-zero scale. For a box with no width or height the source divides by zero, which is not meaningful on reals.
- Piano.WhiteCount: its own contract only bounds the count. `PlaceKeys` and the layout lemmas state what the count means.
- CGFloat is modelled as exact reals, and `Int` as unbounded integers. Rounding and overflow are not modelled.
