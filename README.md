# GameMaker:Studio sprite export: camera framing

This project models the framing step of the Blender operator `ExportGMSSprite.execute`
(io_export_gms_sprite.py, lines 67-114), which prepares a top-down orthographic render of
the selected object before it is saved as a sprite image.

The operator reads the selected object's location and dimensions and the 3D cursor. It
takes the two horizontal corners `(pos ± dim/2)[0:2]`, orders them with Python's
`max`/`min` on 2-tuples, and widens the resulting box to take in the cursor. The code
assumes that these corners bound the object's footprint, that is, that the object's
bounding box is centred on its location and aligned with the world axes. It then:

- centres the camera on that box, at a height of half the object's `y` dimension;
- sets the camera's orthographic scale to the box's longer side;
- keeps the render resolution of the longer side and recomputes the other one, so that
  the canvas has the box's aspect ratio;
- computes the cursor's offset from the box's minimum corner, the sprite origin.

The model has two modules:

- `Framing` (framing.dfy) holds the arithmetic as pure functions over exact reals. It
  models Python's tuple order faithfully: `max` and `min` of two 2-tuples are
  lexicographic, not component-wise. It also holds a reference definition of a bounding
  box (`Bounds`) and the lemmas that relate the operator's frame to it.
- `SpriteExport` (sprite_export.dfy) holds the scene state the operator touches. The
  scene objects, the camera data and the render settings are classes. `Execute` is a
  method that performs the assignments of lines 104-114 in place. Its postcondition ties
  the new state to the `Framing` functions and says what is left unchanged.

Notes on the code's behaviour:

- The origin offset is not rounded. The code only prints it, so `Execute` returns it
  in its outcome.
- When the frame has no extent (`w = h = 0`), the code raises a division by zero at
  line 107 and does not go on. The model returns `ZeroDivision`, and the orthographic
  scale written just before (line 105) stays written.
- The code treats the object's location as the centre of its box. A 10 by 10 object at
  the world origin therefore frames [-5, 5] x [-5, 5] (`ExampleSquareAtOrigin`); the
  same object at (5, 5) frames [0, 10] x [0, 10] (`ExampleSquareOffCentre`).
- A box taller than wide keeps `resolution_y` and recomputes `resolution_x`
  (`ExampleTallObject`).

## Model

| member | source | states |
|---|---|---|
| `Framing.Plane` | io_export_gms_sprite.py:70-73 | the `[0:2]` slice of a vector: its horizontal `x` and `y` |
| `Framing.TupleLess` | io_export_gms_sprite.py:75-76 | Python's `<` on 2-tuples: lexicographic, deciding on `x` unless the `x` values are equal |
| `Framing.TopRight` | io_export_gms_sprite.py:70 | the corner `(pos + dim/2)[0:2]` |
| `Framing.BottomLeft` | io_export_gms_sprite.py:71 | the corner `(pos - dim/2)[0:2]` |
| `Framing.Box.Width` | io_export_gms_sprite.py:99 | `w = mac_x - mic_x` |
| `Framing.Box.Height` | io_export_gms_sprite.py:100 | `h = mac_y - mic_y` |
| `Framing.TupleMax` | io_export_gms_sprite.py:75 | `max` of two 2-tuples returns one of them, and neither argument is lexicographically greater than it |
| `Framing.TupleMin` | io_export_gms_sprite.py:76 | `min` of two 2-tuples returns one of them, and neither argument is lexicographically smaller than it |
| `Framing.Max` | io_export_gms_sprite.py:81 | `max` of two numbers is one of them and at least both |
| `Framing.Min` | io_export_gms_sprite.py:82 | `min` of two numbers is one of them and at most both |
| `Framing.CornerBox` | io_export_gms_sprite.py:70-76 | the lexicographic corners still have the object's location as their midpoint |
| `Framing.Include` | io_export_gms_sprite.py:81-82 | widening by the cursor gives a box that holds the cursor and covers the old bounds, each new bound being the old bound or the cursor's coordinate |
| `Framing.FrameBox` | io_export_gms_sprite.py:68-82 | the frame `[mic_x, mac_x] x [mic_y, mac_y]` always holds the cursor and has no negative side; with non-negative dimensions it also holds both corners `pos ± dim/2` |
| `Framing.Center` | io_export_gms_sprite.py:87-88 | the camera's x/y is equally far from both sides of the box on each axis, so it lies inside the box |
| `Framing.OriginOffset` | io_export_gms_sprite.py:93-94 | box minimum plus origin gives back the cursor; for a cursor inside the box, `0 <= origin_x <= w` and `0 <= origin_y <= h` |
| `Framing.OrthoScale` | io_export_gms_sprite.py:99-109 | the orthographic scale is `max(w, h)`: at least both sides and equal to one of them |
| `Framing.Refit` | io_export_gms_sprite.py:104-111 | for non-negative sides, division by zero happens exactly when `w = h = 0`; otherwise the longer side's resolution is unchanged and `new_x * h == new_y * w` |
| `Framing.ComponentwiseBox` | io_export_gms_sprite.py:70-76 | reference: the box spanned by two points holds both, and each bound is one of their coordinates |
| `Framing.Bounds` | io_export_gms_sprite.py:75-82 | reference: the bounding box of a non-empty list of points holds every point, and each of its four bounds is attained by some point |
| `Framing.BoundsIsSmallest` | io_export_gms_sprite.py:75-82 | every box that holds all the points encloses their bounding box |
| `Framing.LexicographicCornersAreComponentwise` | io_export_gms_sprite.py:70-76 | with non-negative dimensions, the lexicographic `max`/`min` corners are the component-wise ones, `pos ± dim/2` |
| `Framing.LexicographicCornersDisagree` | io_export_gms_sprite.py:70-82 | with dimensions (2, -2) the lexicographic corner box is upside down, differs from the component-wise box, and the frame misses both corners `pos ± dim/2` |
| `Framing.FrameIsBoundingBox` | io_export_gms_sprite.py:70-82 | with non-negative dimensions, the frame is the bounding box of the two corners `pos ± dim/2` and the cursor |
| `Framing.FrameIsSmallest` | io_export_gms_sprite.py:70-82 | with non-negative dimensions, every box holding both corners `pos ± dim/2` and the cursor encloses the frame |
| `Framing.ZeroDivisionExactly` | io_export_gms_sprite.py:70-107 | for any dimensions, the refit divides by zero exactly when both horizontal dimensions are zero and the cursor is at the object's location |
| `Framing.RefitKeepsAspectRatio` | io_export_gms_sprite.py:104-111 | with positive sides and resolutions, the refitted resolution ratio `x / y` equals `w / h` |
| `Framing.RefitKeepsOrientation` | io_export_gms_sprite.py:104-111 | with positive resolutions, the refitted canvas is at least as wide as tall exactly when the box is, and neither resolution is negative |
| `Framing.ExampleSquareAtOrigin` | io_export_gms_sprite.py:68-109 | a 10 by 10 object at the origin with the cursor at (5, 5) frames [-5, 5]², centre (0, 0), origin (10, 10), scale 10 |
| `Framing.ExampleSquareOffCentre` | io_export_gms_sprite.py:68-94 | the same object at (5, 5) frames [0, 10]², centre (5, 5), origin (5, 5) |
| `Framing.ExampleTallObject` | io_export_gms_sprite.py:99-111 | a 10 by 20 object on a 64 by 64 canvas gets scale 20 and resolution 32 by 64 |
| `SpriteExport.ExportContext.Execute` | io_export_gms_sprite.py:67-114 | the scale becomes `OrthoScale` of the frame; on a zero-size frame the outcome is a division by zero and the resolution and camera location are unchanged; otherwise the resolution is the refit one, the camera sits at the frame's centre at height `dimensions.y * 0.5`, and the outcome carries the origin offset; the object's dimensions, and its location unless it is the camera object, are unchanged |

## Left out

- Operator and property declarations, the unused `type` enumeration, menu registration,
  `register`/`unregister` and the test call under `__main__` (lines 10-57, 124-143):
  host plugin glue.
- The `print` diagnostics (lines 78-97): output only. The origin offset, which the code
  only prints, is returned in `Execute`'s outcome instead.
- The render call and `save_render` (lines 117-119): foreign rendering and file I/O.
- Floating-point rounding: the arithmetic is over exact reals.
- How the host stores the non-integer value assigned to an integer resolution field
  (lines 107 and 111), and any clamping the host applies to the resolution or the
  orthographic scale: host behaviour outside this code. The resolution fields are reals.
- How the host derives an object's dimensions from its mesh and scale: dimensions are
  plain inputs here. The host never produces negative ones, which is why the lemmas
  about the corners `pos ± dim/2` assume them non-negative.
- The object's real mesh: the host's `location` is the object's origin and `dimensions`
  is the size of its bounding box along the object's own axes. The frame is proved to
  hold the corners `pos ± dim/2`; it holds the real mesh only when that bounding box is
  centred on the origin and not rotated, which the code assumes and the model does not
  check.
- Sprite document serialisation, identifier generation and the output directory layout:
  none of these exists in this code.
