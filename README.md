# Atlas globe: map-region morph and grid model

This project models the geometry behind the virtual globe's "click a map region, morph it flat, morph it back" feature:

- **transform.js** (module `Transform`) covers three parts:
  - keyframe interpolation: `lerp`, `findInterval` and `interpolator`;
  - the per-frame morph step `mapshapeTransform`. It works on the global clock `t` and the `dialogClose` flag (class `MorphAnimation`) and overwrites the nine transition vertices in place (`array<Vec3>`);
  - the close handler of `showDialog` and the flat 3x3 target rectangle `calcFlatMapShape`.
- **virtualglobe.js** (module `VirtualGlobe`) covers:
  - `toRadians` and the angle shifts of `convertLatLongToWebGLXYZ`;
  - `createMapShape`, which samples a latitude/longitude rectangle as a 3x3 grid, places the nine samples on the sphere of radius 20.1 and emits eight triangles that tile the four grid cells.

`vectors.dfy` holds the shared values: `Option`, `Vec3` and the row-by-row grid layout. JavaScript numbers are modelled as `real`. The `NaN` and `undefined` that the animation uses as its "out of range" signal are modelled as `Option.None`. `Math.sin` and `Math.cos` are parameters that the model leaves uninterpreted.

## Model

| member | source | states |
|---|---|---|
| `Transform.Lerp` | transform.js:28-31 | Linear interpolation gives v1 at k1 and v2 at k2. For k between the keys, the result lies between v1 and v2. |
| `Transform.FindInterval` | transform.js:35-44 | No ordering of the keys is assumed. A returned index i satisfies 1 <= i < \|keys\| (never 0) and keys[i-1] < k <= keys[i]. It is the first index whose key reaches k, and keys[0] < k. The result is None exactly when there are no keys, k <= keys[0], or k exceeds every key. |
| `Transform.IntervalUnique` | transform.js:38-43 | At most one index satisfies the bracketing condition the search returns on. |
| `Transform.Interpolate` | transform.js:47-58 | The result is None (NaN) exactly when no interval brackets the key. Otherwise it is the lerp over the bracketing pair, and it lies between that pair's values. |
| `Transform.KeysBracket` | transform.js:70 | With keys [0, 2], t is bracketed (at index 1) exactly when 0 < t <= 2, and is out of range otherwise. |
| `Transform.MorphVertex` | transform.js:94-101 | The per-vertex morph moves each vertex along the straight line from start to end: its displacement from the start is the fraction t / 2 of the whole move. |
| `Transform.MorphEndpoints` | transform.js:94-101 | A coordinatewise morphed vertex equals the start vertex at t = 0 and the end vertex at t = 2. In between, every coordinate lies between its start and end values. |
| `Transform.MorphAnimation.constructor` | transform.js:22-23 | The animation starts with t = 0 and dialogClose false. |
| `Transform.MorphAnimation.MapshapeTransform` | transform.js:63-144 | t grows by exactly dt and dialogClose is unchanged. If 0 < t <= 2, all nine transition vertices become the coordinatewise interpolation of start and end, and the next frame is requested. At t = 2 the transition shape equals the end shape. Otherwise no transition vertex changes, and the outcome is "open dialog" if dialogClose is false and "finish" if it is true. Vertices past the ninth never change. |
| `Transform.MorphAnimation.CloseDialog` | transform.js:230-235 | Closing the dialog sets dialogClose and resets t to 0. It then runs one frame with the start and end shapes swapped, so the transition vertices move from the flat shape back toward the globe shape. An out-of-range first frame finishes and changes no vertex. Vertices past the ninth never change. |
| `Transform.FrameOf` | transform.js:158-197 | The rectangle's centre is -21 times the camera direction. It spans 0.8 times the zoomed view: top minus bottom is the up vector scaled by 0.8 (top - bottom) / zoom, and right minus left is the side vector scaled by 0.8 (right - left) / zoom. |
| `Transform.FrameCentreDistance` | transform.js:158-197 | For a unit camera direction, as `getWorldDirection` reports it, the rectangle's centre is 21 units from the globe's centre: 1 unit outside the globe of radius 20. |
| `Transform.FlatGridIsLattice` | transform.js:199-209 | The flat grid is a lattice: the step between two columns is the same in every row and the step between two rows is the same in every column. The middle vertex is the centre. |
| `Transform.CalcFlatMapShape` | transform.js:155-213 | Writes exactly vertices 0..8. Vertex 3r+c is the centre plus [top, 0, bottom][r] plus [left, 0, right][c], vertex 4 is -21 times the camera direction, and every later vertex is unchanged. |
| `VirtualGlobe.ToRadians` | virtualglobe.js:257-260 | 180 degrees is PI, 0 is 0, and the sign is kept. |
| `VirtualGlobe.ToRadiansLinear` | virtualglobe.js:257-260 | The conversion respects sums and scalar multiples. |
| `VirtualGlobe.PolarAngle` | virtualglobe.js:145-147 | The polar angle toRadians(90 - lat) is 0 at the north pole, PI at the south pole, and in [0, PI] for every latitude in [-90, 90]. |
| `VirtualGlobe.Azimuth` | virtualglobe.js:149-151 | toRadians(lon + 90) is the longitude in radians plus a quarter turn. |
| `VirtualGlobe.ConvertLatLongToWebGLXYZ` | virtualglobe.js:143-165 | The converted point lies in the vertical plane of its meridian, the plane through the y axis at the longitude's azimuth. Its height and its distance from the centre are stated by `HeightDependsOnlyOnLatitude` and `ConvertOnSphere`. |
| `VirtualGlobe.HeightDependsOnlyOnLatitude` | virtualglobe.js:143-164 | The y coordinate of a converted point does not depend on the longitude. |
| `VirtualGlobe.ConvertOnSphere` | virtualglobe.js:153-158 | Wherever sin^2 + cos^2 = 1 holds at the two angles, the converted point lies on the sphere of the given radius. |
| `VirtualGlobe.Midpoint` | virtualglobe.js:94 | 0.5 * (b - a) + a equals (a + b) / 2, lies between a and b, and is equidistant from both. |
| `VirtualGlobe.SampleAt` | virtualglobe.js:91-109 | Sample 0 is the first edge value, sample 2 the second, sample 1 the midpoint. Every sample lies between the two edge values. |
| `VirtualGlobe.GridCoordinates` | virtualglobe.js:86-109 | Indices 0-2 get lat1, 3-5 the midpoint latitude and 6-8 lat2. Longitudes run long1, midpoint, long2 in every row, so latitude depends only on the row and longitude only on the column. |
| `VirtualGlobe.SplitCellTriangles` | virtualglobe.js:121-128 | The two triangles of a cell use only its corners, and between them all four. They share the diagonal and run it in opposite directions. |
| `VirtualGlobe.FacesInRange` | virtualglobe.js:121-128 | Every face index of the tiling lies in 0..8. |
| `VirtualGlobe.EveryVertexUsed` | virtualglobe.js:121-128 | Each of the nine vertices is a corner of some face. |
| `VirtualGlobe.ConsistentWinding` | virtualglobe.js:121-128 | No directed edge is used by two faces, so the mesh is wound consistently. |
| `VirtualGlobe.CreateMapShape` | virtualglobe.js:84-137 | Produces exactly nine vertices in index order. Vertex i is the sphere point at radius 20.1 for grid row i/3 and column i%3. Produces exactly eight faces: faces 2m and 2m+1 split cell m along the same diagonal, cells taken row by row. |
| `VirtualGlobe.GridVerticesOnSphere` | virtualglobe.js:116-119 | Wherever sin^2 + cos^2 = 1 holds, every grid vertex is at distance 20.1 from the globe's centre. |

## Left out

- Transform.Lerp: requires k1 != k2. With equal keys JavaScript yields NaN or an infinity. Its only caller always passes a bracketing pair keys[i-1] < k <= keys[i], so the keys never coincide there.
- Floating point: all arithmetic is on exact reals. Rounding is not modelled, and neither are NaN or infinite vertex coordinates. `Math.PI` is the decimal 3.141592653589793, and 0.8 and 20.1 are exact reals.
- Transform.MorphAnimation.MapshapeTransform: it requires the transition buffer to be a different array from the start and end buffers. The click handler in init.js always builds it as a fresh clone, so the aliased case is not modelled. Each vertex is a value, so aliasing between individual `Vector3` objects is not modelled either.
- Rendering and scheduling in `mapshapeTransform` are not modelled: `clock.getDelta()` becomes the parameter `dt`, and `clock.start`/`stop` are not modelled. `renderer.render`, `requestAnimationFrame`, `console.log`, `verticesNeedUpdate`, the `visible` flags, `scene.remove`, re-adding the mouse listeners and `controls.enabled` are also dropped. The three exits are reported as a `FrameOutcome`. Successive frames are successive calls; the recursion through `requestAnimationFrame` is not modelled.
- `showDialog`: the jQuery dialog, its iframe and its size are not modelled. Only the close handler's effect is modelled, as `CloseDialog`.
- Transform.CalcFlatMapShape: requires zoom != 0 (a zero zoom gives infinities in JavaScript). The camera queries `getWorldDirection`, `getWorldQuaternion`, `applyQuaternion` and `crossVectors` are not computed: their results are inputs (the direction, the up vector and their cross product), as are the camera extents and zoom.
- Trigonometry: `Math.sin` and `Math.cos` are uninterpreted parameters. The radius facts hold only under the identity sin^2 + cos^2 = 1 at the angles used.
- `createMapShape` material and mesh wrapping are not modelled: the random colour, the transparency, `DoubleSide` and the `THREE.Mesh` object are dropped. The model returns the vertex and face lists.
- The commented-out alternative `createMapShape` bodies in virtualglobe.js (lines 167-254) are dead code and are not modelled.
- init.js (scene, camera, renderer, picking, buttons, `createGlobe`, `addMapObjects`) and axes.js are not part of this model.
