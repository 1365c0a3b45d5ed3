# Terrain skirt and side-face selection

A model of `addSide`, the post-processing that the Tangible Landscape Blender
add-on applies to each freshly imported terrain mesh. It has three parts:

1. **Bounding rectangle.** The vertex positions are mapped to world space.
   Vertices whose x is NaN are dropped. xmin, xmax, ymin and ymax are taken
   over the rest. When no vertex is left, Python's `min` of an empty list
   raises; the model returns `Failure(EmptyInput)` instead.
2. **Boundary drop pass.** An if/elif chain with tolerance 3 runs over the
   local vertex coordinates. A vertex is selected and its z is set to -50
   when its local x is strictly within 3 of xmin or xmax, or its local y is
   strictly within 3 of ymin or ymax. The rectangle itself comes from the
   world coordinates, so the model keeps the two apart: the world transform
   is a parameter `toWorld`.
3. **Face orientation.** `GoingUp` and `GoingDown` compare the dot product of
   a normal with (0,0,±1) against a limit (default 0.5). `GoingSide`
   (default limit 0.2) holds when neither holds at its own limit. The face
   loop sets each face's selection flag to `GoingSide` of its normal.

Coordinates are Dafny `real`s. A NaN x is the constructor `NaN` of `Float`,
and every ordering test on it is false (`Lt`, `Gt`).

Modules: `Geometry` (values), `Orientation` (the nested predicates),
`Bounds` (rectangle), `Skirt` (drop pass), `Terrain` (the face loop and the
whole step).

## Model

| member | source | states |
|---|---|---|
| `Orientation.NormalInDirection` | Modeling3D.py:133-134 | the dot product with a direction exceeds the limit iff the dot product with the opposite direction is below minus the limit (default limit 0.5) |
| `Orientation.OppositeDirectionsExclusive` | Modeling3D.py:133-134 | with a limit >= 0, a normal never points into a direction and into its opposite at once |
| `Orientation.GoingUp` | Modeling3D.py:136-137 | the dot product with (0,0,1) exceeds the limit iff the normal's z exceeds it |
| `Orientation.GoingDown` | Modeling3D.py:139-140 | the dot product with (0,0,-1) exceeds the limit iff -z exceeds it |
| `Orientation.GoingSide` | Modeling3D.py:142-143 | holds iff -limit <= z <= limit (default limit 0.2) |
| `Orientation.UpDownExclusive` | Modeling3D.py:133-140 | for any limit >= 0, up and down never both hold |
| `Orientation.ExactlyOneLabel` | Modeling3D.py:136-143 | at limit 0.2, exactly one of up, down and side holds for every normal |
| `Orientation.LabelDependsOnlyOnZ` | Modeling3D.py:136-143 | two normals with the same z get the same up, down and side answers |
| `Orientation.AxisNormals` | Modeling3D.py:136-143 | (0,0,1) is up, (0,0,-1) is down, (1,0,0) and the zero normal are side |
| `Orientation.DefaultLimitsLeaveBand` | Modeling3D.py:136-143 | a normal with 0.2 < abs(z) <= 0.5 is neither up nor down at the defaults, nor side |
| `Bounds.Finite` | Modeling3D.py:101-106 | keeps exactly the positions with a numeric x, drawn from the input |
| `Bounds.CollectFinite` | Modeling3D.py:101-106 | the three lists are the x, y and z of the non-NaN-x positions, in order and aligned |
| `Bounds.SeqMin` | Modeling3D.py:108-110 | the result is an element of the list and no element is smaller |
| `Bounds.SeqMax` | Modeling3D.py:109-111 | the result is an element of the list and no element is larger |
| `Bounds.ComputeBox` | Modeling3D.py:101-111 | fails iff every x is NaN; otherwise the rectangle contains every non-NaN-x position and each bound is reached by one of them |
| `Bounds.BoundingBoxUnique` | Modeling3D.py:108-111 | at most one rectangle is tight in that sense |
| `Skirt.Skirted` | Modeling3D.py:113-129 | x and y are kept; z becomes -50 and the vertex is selected exactly when the local x or y is in one of the four open bands; otherwise the vertex is unchanged |
| `Skirt.DropBoundary` | Modeling3D.py:115-129 | the in-place pass, written as the source's if/elif chain, leaves every vertex as `Skirted` of its old value |
| `Skirt.ElifChainIsDisjunction` | Modeling3D.py:116-129 | a first-match chain over any list of sides drops the vertex iff some listed side is near |
| `Skirt.ElifChainOrderIrrelevant` | Modeling3D.py:116-129 | every chain that tests all four sides, in any order, equals the plain disjunction |
| `Skirt.SourceChainIsSkirted` | Modeling3D.py:116-129 | the chain in the source's order (x-min, y-min, x-max, y-max) equals the plain disjunction |
| `Skirt.SkirtIdempotent` | Modeling3D.py:115-129 | a second pass with the same rectangle changes nothing |
| `Skirt.NaNXOnlyByY` | Modeling3D.py:116-129 | a vertex with NaN x is dropped iff its y is near ymin or ymax |
| `Skirt.SidesAreDropped` | Modeling3D.py:113-129 | a vertex lying on a side of the rectangle is always dropped |
| `Skirt.BandIsOpen` | Modeling3D.py:113-129 | a vertex at least 3 away from all four sides keeps its z and selection |
| `Terrain.World` | Modeling3D.py:99 | one world position per vertex, in vertex order, each the transform of that vertex's local coordinates |
| `Terrain.SelectSideFaces` | Modeling3D.py:149-150 | each face's flag becomes `GoingSide` of its own normal; normals are unchanged |
| `Terrain.AddSide` | Modeling3D.py:84-157 | on failure only the selection is cleared. On success the result is the tight rectangle of the world positions, a vertex is selected iff it is on the boundary, every vertex is `Skirted`, and the faces are selected by `GoingSide` |

## Left out

- Blender plumbing: object lookup by name, `select_set` on the object, `mode_set`, `from_edit_mesh`, `update_edit_mesh`, `material_slot_assign`, `assign_material` and the `mat` argument. None of these affects the modelled values. The mode test at Modeling3D.py:92-97 chooses between the edit-mode vertex list and the object's vertex list. The model follows only the edit-mode branch (lines 93-94), which is the mode that line 88 has just set. The one exception is `select_all(action="DESELECT")` (Modeling3D.py:89), which is modelled as clearing every vertex and face flag.
- Selection flushing: in Blender, selecting vertices also selects the edges between them. The model keeps only the vertex flags.
- Face normals: Blender recomputes them after the vertices move. The model takes the normals the face loop reads as given, and does not derive them from vertex positions.
- The world matrix: it is the abstract function `toWorld`. No matrix product is modelled.
- Floating point: NaN is modelled only in x, where the source tests for it. y and z are finite reals, and there is no rounding.
- The world z list: it is collected, as the source does, but nothing uses it.
- Materials, world and node graphs (`create_terrain_material`, `create_world`, `TL_OT_Assets`): these only build host objects.
- Object helpers `smooth`, `select_only`, `remove_object`: these are host calls.
- The folder watcher (`ModalTimerOperator`), GIS import (`Adapt.terrainChange`), `Prefs` and the UI classes: these are file-system and host I/O.
- The add-on registration in `__init__.py`: it has no modelled values.
- Constants: the code fixes the tolerance at 3 and the skirt depth at -50. The model follows the code. Later revisions of the add-on change these constants; those revisions are not part of this model.
