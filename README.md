# platz rasteriser core in Dafny

A model of the core of platz, a small C++ CPU software rasteriser, with proofs of what that code does. The model covers:

- the early free-function renderer of `src/main.cpp`: the draw context and its buffers, resize, the per-frame clear, the pixel writer, the Bresenham line, and the barycentric inside test;
- the z-buffered, perspective-correct, texture-mapped triangle fill, and the projecting overload that rejects a triangle outside the depth range;
- the `Canvas` class of `src/canvas.cpp`: its white z-buffered fill, its float-colour pixel writer and `project`;
- the view frustum (corner construction and plane-by-plane `clip`) and `PerspectiveProjector::getFrustum`;
- the 4x4 matrix operations, and the camera's view matrix with its identity fallback;
- the texel lookup of `PhongMaterial::Shade`;
- the OBJ loader, taken over the lines of a file;
- the scene scaffolding: entities and their component maps, dense entity ids, per-frame bucketing of components by type id, the `IsA` chain of the run-time type macros, and the dirty-flag world-matrix cache of `Transform`.

The numeric conventions are these:
- `float` is `real`.
- The `(int)` cast is truncation toward zero (`Numeric.Trunc`).
- C++ `%` takes the sign of the dividend (`Numeric.CRem`).
- `unsigned char` is the newtype `Numeric.byte`.

Where the source mutates state the model does the same:
- Pixel and depth buffers are `array`s written in place. Each fill method proves a frame condition over a ghost set of the pixels it touched.
- A `Matrix44` holds a sixteen-entry array, and its methods are proved against functions on `seq<real>`.
- `Transform`, `Entity`, `Entities`, `Components` and the type counter are classes with `modifies` clauses.
- Loops are `while`/`for` loops with invariants.

Expression-like code is modelled as functions:
- the barycentric test;
- `project`;
- `Shade`;
- the OBJ text handling;
- `IsA`.

Inputs the source gets from the outside world are parameters:
- The texture globals are an `Image` value.
- The `project` lambda is a function.
- The tangent is a function, as is the triangle-against-plane classification.
- The float parser of the OBJ loader is a function.
- The camera pose that a matrix decomposition would supply is a value.

Modules, one per file:
- `Numeric`
- `Vectors`
- `Colors`
- `Vertices`
- `Triangles`
- `Raster`, the buffer model shared by both rasterisers
- `Bresenham`
- `MainRenderer`
- `CanvasRaster`
- `Frustums`
- `Projectors`
- `Matrices`
- `Transforms`
- `Ecs`
- `Cameras`
- `Shading`
- `ObjText`
- `ObjLoader`
- `Objects`

Three places where the code is easy to misread; the model follows the code:
- **Depth test.** The fills overwrite a stored depth that is EQUAL to the new one. The test is `if (newZ > oldZ) continue;`, not a strict "closer" test.
- **Bounding box.** `Canvas::drawTriangle` scans the box clamped to `[0, width] x [0, height]` with `<` loop bounds.
- **OBJ faces.** An `f` line is read only in `p/t/n` form.

## Model

| member | source | states |
|---|---|---|
| Numeric.Trunc | src/main.cpp:169-172 | the `(int)` cast: for r >= 0 the result is the floor; for r < 0 it is the ceiling (rounding toward zero) |
| Numeric.CRem | src/phong_material.cpp:17-18 | C++ `%` with a positive divisor: in [0, b) for a >= 0, in (-b, 0] for a < 0 |
| Numeric.DivModUnique | src/main.cpp:160-161 | a row-major offset `q*d + r` with 0 <= r < d decodes uniquely back to q and r |
| Numeric.GridOffsetInRange | src/main.cpp:160-161 | the offset of an on-screen cell `(row*width + col)*size` and its `size` units lie inside a buffer of width*height*size; `row*(width*size) + col*size` is the same offset |
| Vectors.SetStores | include/vector3.h:17-27 | `set` stores exactly the given x, y, z, whatever the vector held before |
| Vectors.SettersAreLocal | include/vector3.h:29-36 | each one-argument setter changes its own component and leaves the other two |
| Vectors.DotSymmetric | include/vector3.h:38-40 | `a.dot(b) == b.dot(a)` |
| Vectors.DotSelfNonNegative | include/vector3.h:38-40 | `v.dot(v) >= 0` |
| Vectors.DotLinear | include/vector3.h:38-44 | the dot product is linear in its first argument |
| Vectors.SubSelfIsZero | include/vector3.h:46-48 | `a - a` is the zero vector |
| Vectors.SubAddCancel | include/vector3.h:46-48 | subtraction undoes addition on either side |
| Vectors.ScaleComponents | include/vector3.h:42-44 | `v * f` scales each component by f; scaling by 1 is the identity and by 0 gives zero |
| Vectors.Div | include/vector3.h:50-52 | `v / f` (f != 0) multiplied back by f gives v |
| Vectors.DivIsScaleByInverse | include/vector3.h:50-52 | `v / f` is `v * (1/f)`, and dividing `v * f` by f gives back v |
| Triangles.GetBarycentricCoords | src/main.cpp:71-89 | the result is false exactly when the Gram determinant of the edges is 0, and then `out` is unchanged; otherwise u + v + w = 1 and (v, w) solve the normal equations of p - a in the edge basis |
| Triangles.Solve | src/main.cpp:80-88 | the same four facts, stated on the five dot products |
| Triangles.CramerSolves | src/main.cpp:82-84 | the Cramer quotients for v and w solve the 2x2 symmetric system |
| Triangles.CramerUnique | src/main.cpp:80-84 | on a non-zero determinant the system has at most one solution |
| Triangles.BarycentricOfAffinePoint | src/main.cpp:71-89 | round trip: the plane point a + v(b-a) + w(c-a) gets back the coordinates (1-v-w, v, w) |
| Triangles.VertexCoordinates | src/main.cpp:71-89 | the vertices a, b, c get the coordinates (1,0,0), (0,1,0), (0,0,1) |
| Triangles.Contains | src/main.cpp:54-69 | true exactly when the coordinates exist with v >= 0, w >= 0 and v + w <= 1; `coords` is written whenever they exist, even when the answer is false; on true the three weights are convex |
| Triangles.ContainsClosedTriangle | src/main.cpp:54-69 | every point of the closed triangle is contained, with its coordinates |
| Triangles.InterpolateBetween | src/main.cpp:237-239 | the interpolated depth lies between the least and the greatest vertex depth |
| Triangles.PerspectiveAverageInUnit | src/main.cpp:247-251 | with positive w and texture coordinates in [0,1], the sum of k_i/w_i is positive and the perspective-correct coordinate lies in [0,1] |
| Raster.PutPixelBytes | src/main.cpp:156-165 | byte by byte, `drawPixel` changes exactly bytes index..index+2 of an on-screen pixel (index = y*stride + x*bpp) to r, g, b, and nothing else; off screen it changes nothing |
| Raster.PutPixelColours | src/main.cpp:160-164 | after a pixel write, that pixel has the colour and every other pixel keeps its colour |
| Raster.PlotAllColours | src/main.cpp:178-192 | after a run of pixel writes in one colour, a pixel has that colour exactly when an on-screen point landed on it, and keeps its colour otherwise |
| Raster.ClampedBox | src/main.cpp:207-214 | the scanned box lies within [0, width] x [0, height] |
| Raster.ClampedBoxSpan | src/main.cpp:207-214 | a point is scanned exactly when it is on the screen rectangle and within the vertices' bounding box (lower bounds inclusive, upper bounds exclusive) |
| Raster.SamplePixelInBox | src/main.cpp:227-231 | a scanned sample point truncates to a pixel that overlaps the box |
| Raster.DepthNeverIncreases | src/main.cpp:241-245 | under the depth frame no z-buffer entry grows |
| Raster.DepthFrameStep | src/main.cpp:241-245 | writing a depth not above the stored one, at an on-screen pixel, keeps the depth frame with that pixel touched |
| Raster.ColourFrameStep | src/main.cpp:262-263 | a pixel write keeps the colour frame with that pixel touched |
| Raster.PixelIndexDecodes | src/main.cpp:236 | the index `i*width + j` of an on-screen pixel decodes back to its column and row |
| Bresenham.ExitTest | src/main.cpp:180-182 | the exit test `ix0 == ix1 && iy0 == iy1` holds exactly when both step counts have reached their ends |
| Bresenham.StepProgress | src/main.cpp:183-191 | one pass keeps the error-term invariant, moves each count by 0 or 1 and moves at least one of them, so the loop terminates |
| Bresenham.SourceStep | src/main.cpp:183-191 | the source's two conditional updates of x, y and err are one step of the walk, and the walk from there is the rest of the line |
| Bresenham.NoStepPastEnd | src/main.cpp:183-188 | once x has reached its end, `e2 >= dy` no longer holds, so x is never stepped past the endpoint |
| Bresenham.PlottedEndsAtEndpoint | src/main.cpp:178-192 | from any reachable state the walk starts on the current pixel and ends on (ix1, iy1) |
| Bresenham.PointsEndpoints | src/main.cpp:167-193 | the line plots (ix0, iy0) first and (ix1, iy1) last |
| Bresenham.PointsAdjacent | src/main.cpp:178-192 | consecutive pixels differ, and each coordinate moves by 0 or by its step direction |
| Bresenham.PointsLength | src/main.cpp:173-192 | the line has at least max(dx, abs(y1-y0)) + 1 and at most dx + abs(y1-y0) + 1 pixels |
| MainRenderer.TexelCoord | src/main.cpp:252-253 | `min((int)(t*n), n-1)` lies in [0, n) and is the texel containing t*n; t = 1 is clamped onto the last texel |
| MainRenderer.CellPosition | src/main.cpp:252-253 | the product t*m of a fraction t of a positive m lies in [0, m], below m unless t = 1 |
| MainRenderer.ClampedTrunc | src/main.cpp:252-253 | `min((int)x, n-1)` for x in [0, n] is the cell of [0, n) holding x, with x = n clamped onto the last cell |
| MainRenderer.UnitScaled | src/main.cpp:252-253 | t*m for t in [0,1] lies in [0, m], and below m unless t == 1 |
| MainRenderer.PerspectiveUv | src/main.cpp:247-251 | the perspective-correct texture coordinate of a sample inside the triangle lies in the unit square |
| MainRenderer.SampleTexture | src/main.cpp:252-257 | the sample colour is a texel of the image: the read at `ty*width*channels + tx*channels` is in range |
| MainRenderer.Context.constructor | src/main.cpp:432-436 | `bytesPerPixel = 3` and buffers of width*height*3 bytes and width*height depths |
| MainRenderer.Resize | src/main.cpp:144-154 | `resizeCallback`: the new size, fresh buffers of width*height*bpp bytes and width*height depths |
| MainRenderer.ClearFrame | src/main.cpp:462-467 | after the clear every colour byte is 0 and every depth is 1 |
| MainRenderer.DrawPixel | src/main.cpp:156-165 | the colour buffer afterwards is `PutPixel` of the old one: unchanged off screen, exactly three bytes on screen |
| MainRenderer.DrawLine | src/main.cpp:167-193 | the colour buffer afterwards is the old one with the Bresenham pixels between the truncated endpoints drawn in order |
| MainRenderer.DrawLineBetween | src/main.cpp:195-197 | `drawLine` on the x and y of two points |
| MainRenderer.StoreStep | src/main.cpp:245-263 | storing an in-range depth not above the old one and drawing a texel at an on-screen pixel of the box keeps the fill's frame condition |
| MainRenderer.TexelStep | src/main.cpp:255-263 | drawing a texel keeps every touched pixel a texel of the image |
| MainRenderer.DrawSample | src/main.cpp:229-263 | one sample of the fill keeps the frame condition |
| MainRenderer.StoreSample | src/main.cpp:245-263 | the depth write and texel draw of a sample that passed the depth test keep the frame condition |
| MainRenderer.DrawRow | src/main.cpp:228-265 | one row of the box keeps the frame condition |
| MainRenderer.DrawTriangle | src/main.cpp:203-267 | every changed depth and colour byte belongs to a touched pixel; each touched pixel overlaps the clamped box, holds a depth between the vertices' least and greatest depth and no greater than before, and holds a texel; no z-buffer entry grows |
| MainRenderer.DrawProjectedTriangle | src/main.cpp:269-295 | if a projected depth is outside [-1, 1] neither buffer changes; otherwise the screen triangle is filled as `DrawTriangle` states |
| CanvasRaster.MulVec4IsTransformPoint | src/canvas.cpp:105-106 | with the `Vector4` product taken to be the column-major `MulVec4`, for w = 1 the homogeneous product followed by the division by w is `Matrix44::operator*(Vector3)` |
| CanvasRaster.NdcToScreenCorners | src/canvas.cpp:107-112 | NDC (-1, 1) maps to screen (0, 0) and NDC (1, -1) to (width, height); depth passes through |
| CanvasRaster.NdcToScreenRoundTrip | src/canvas.cpp:107-112 | on a non-empty screen the viewport map and its inverse undo each other, both ways round |
| CanvasRaster.ViewportAxis | src/canvas.cpp:107-112 | one axis of the viewport map is inverted by u*(2/size) - 1 |
| CanvasRaster.NdcToScreenMonotone | src/canvas.cpp:107-112 | the viewport map keeps the order of x and reverses the order of y |
| CanvasRaster.ProjectKeepsDepthAndW | src/canvas.cpp:104-114 | `project` keeps the clip w, its depth is the clip depth over w, and mapping its screen point back gives the clip position over w |
| CanvasRaster.ToByte | src/canvas.cpp:99-101 | `(unsigned char)(c*255)` is the byte b with b <= max(c*255, 0) < b+1 |
| CanvasRaster.ToByteRange | src/canvas.cpp:99-101 | every channel in [0,1] converts; 0 gives 0 and 1 gives 255 |
| CanvasRaster.WhiteIsFullBytes | src/canvas.cpp:87 | `Color::white` is stored as (255, 255, 255) |
| CanvasRaster.ToByteMonotone | src/canvas.cpp:99-101 | a brighter channel never gives a smaller byte |
| CanvasRaster.ColouredStep | src/canvas.cpp:87 | drawing white keeps every touched pixel white |
| CanvasRaster.Canvas.constructor | src/canvas.cpp:8-13 | stores the size and bpp; both buffers are left unset |
| CanvasRaster.Canvas.DrawPixel | src/canvas.cpp:93-102 | off screen nothing changes; on screen exactly the three bytes at y*stride + x*bpp take the converted colour |
| CanvasRaster.Canvas.DrawSample | src/canvas.cpp:58-87 | one sample of the fill keeps the frame condition |
| CanvasRaster.Canvas.StoreWhite | src/canvas.cpp:71-87 | the depth write and white pixel of a sample that passed the depth test keep the frame condition |
| CanvasRaster.Canvas.DrawRow | src/canvas.cpp:57-89 | one row keeps the frame condition |
| CanvasRaster.Canvas.DrawTriangle | src/canvas.cpp:15-91 | nothing changes if a projected vertex has abs(z) > 1; otherwise only touched pixels change; each touched pixel overlaps the clamped box, holds a depth in the vertices' range and no greater than before, and is white; no z-buffer entry grows |
| Frustums.DiagonalsMeetAtCenter | src/frustum.cpp:18-28 | opposite corners of the far and near rectangles add up to twice their centre |
| Frustums.EdgesAreFullExtents | src/frustum.cpp:19-28 | FarTopRight - FarTopLeft = 2 farW right, FarTopLeft - FarBottomLeft = 2 farH up, and the same for the near rectangle |
| Frustums.CornerDepth | src/frustum.cpp:18-28 | for an orthonormal pose a corner built at distance d lies d along the camera's view direction |
| Frustums.NearAndFarPlanesAtDepth | src/frustum.cpp:30-35 | the three points of the near plane lie at depth near and those of the far plane at depth far |
| Frustums.FirstNotVisible | src/frustum.cpp:40-48 | the first plane, in order, that does not report Visible |
| Frustums.ClipDecidedByFirst | src/frustum.cpp:38-53 | the first plane that does not report Visible decides: Hidden gives Hidden with `out` untouched, Clipped gives Clipped with that plane's pieces; if none, Visible with `out` untouched |
| Frustums.VisibleIffAllVisible | src/frustum.cpp:40-52 | Visible exactly when all six planes report Visible |
| Frustums.HiddenIffFirstHidden | src/frustum.cpp:42-44 | Hidden exactly when some plane reports Hidden and every earlier one reported Visible |
| Frustums.ClippedIffFirstClipped | src/frustum.cpp:45-48 | Clipped exactly when some plane reports Clipped and every earlier one reported Visible; `out` then holds that plane's pieces and is otherwise untouched |
| Frustums.Frustum.constructor | src/frustum.cpp:7-36 | the planes stored, indexed Near, Far, Left, Right, Bottom, Top, are those through the computed corners |
| Frustums.Frustum.Clip | src/frustum.cpp:38-53 | the loop with early returns computes the plane-by-plane dispatch over the stored planes in enum order |
| Projectors.ExtentsProportional | src/perspective_projector.cpp:16-29 | wNear = hNear ratio, wFar = hFar ratio, hFar znear = hNear zfar, and near and far are passed unchanged |
| Projectors.ExtentsAtDistance | src/perspective_projector.cpp:16-20 | each half height is the distance times tan(fov/2) and each half width that times the ratio |
| Projectors.GetFrustum | src/perspective_projector.cpp:15-30 | the frustum is built from the pose and the computed extents, in constructor order |
| Matrices.IdentityPattern | src/matrix44.cpp:151-158 | the identity is 1 at indices 0, 5, 10, 15 and 0 elsewhere |
| Matrices.WithPositionIsLocal | src/matrix44.cpp:46-51 | `setPosition` writes indices 12, 13, 14 and leaves the other thirteen |
| Matrices.ScaledByColumn | src/matrix44.cpp:37-44 | `scale` multiplies indices 0-3 by x, 4-7 by y, 8-11 by z and leaves 12-15 |
| Matrices.RotationIsLinearPart | src/matrix44.cpp:5-35 | `setRotation` sets indices 3, 7, 11, 12, 13, 14 to 0 and 15 to 1; the identity quaternion gives the identity |
| Matrices.ComposeIsAffine | src/matrix44.cpp:53-58 | after `compose` index 15 is 1, indices 12-14 are the position and 3, 7, 11 are 0 |
| Matrices.ComposeIdentityIsTranslation | src/matrix44.cpp:53-58 | composing with the identity rotation and unit scale gives the pure translation |
| Matrices.ProductIdentity | src/matrix44.cpp:60-97 | multiplying by the identity on either side returns the other factor |
| Matrices.TranslationsCompose | src/matrix44.cpp:60-97 | the product of two translations is the translation by their sum |
| Matrices.TransformPointByTranslation | src/matrix44.cpp:99-108 | the identity leaves a point where it is, and a translation moves it by its offset |
| Matrices.InverseOfIdentity | src/matrix44.cpp:110-149 | the identity has determinant 1 and is its own inverse |
| Matrices.InverseOfTranslation | src/matrix44.cpp:110-149 | a translation by p has determinant 1 and inverse the translation by -p, and the two multiply to the identity |
| Matrices.PerspectivePattern | src/matrix44.cpp:160-176 | `makePerspective` has -1 at index 11, 0 at 15, f at 5, f/aspect at 0, and zeros outside 0, 5, 10, 11, 14 |
| Matrices.PerspectiveDepthRange | src/matrix44.cpp:171-174 | the near plane maps to depth -1 and the far plane to +1 |
| Matrices.Matrix44.SetIdentity | src/matrix44.cpp:151-158 | the entries become the identity |
| Matrices.Matrix44.SetPosition | src/matrix44.cpp:46-51 | the entries become `WithPosition` of the old ones |
| Matrices.Matrix44.Scale | src/matrix44.cpp:37-44 | the entries become `Scaled` of the old ones |
| Matrices.Matrix44.SetRotation | src/matrix44.cpp:5-35 | every entry is overwritten with the quaternion's rotation matrix |
| Matrices.Matrix44.Compose | src/matrix44.cpp:53-58 | rotation, then scale, then position: the result does not depend on the old entries |
| Matrices.Matrix44.Times | src/matrix44.cpp:60-97 | a fresh matrix holding the column-major product |
| Matrices.Matrix44.TimesPoint | src/matrix44.cpp:99-108 | the point (x, y, z, 1) transformed and divided by its w |
| Matrices.Matrix44.GetInverse | src/matrix44.cpp:110-149 | returns true exactly when det != 0; then `out` holds the adjugate over det (read before written, so `out` may alias), otherwise `out` is unchanged |
| Matrices.Matrix44.MakePerspective | src/matrix44.cpp:160-176 | a fresh matrix with the perspective entries |
| Cameras.ViewOfTranslation | src/camera.cpp:10-16 | the view of a translated camera is the opposite translation, and it undoes the world matrix |
| Cameras.ViewOfMovedCamera | src/camera.cpp:10-16 | a camera composed from a position alone sees the world moved by minus that position |
| Cameras.ViewOfFlattenedCamera | src/camera.cpp:15 | a camera scaled to zero on an axis has a singular world matrix, and the view falls back to the identity |
| Cameras.GetViewMatrix | src/camera.cpp:10-16 | the view is the inverse of the transform's world matrix (recomposed when stale), or the identity; it is always fully written |
| Transforms.Transform.constructor | src/transform.h:18-27 | stores position, rotation and scale; the cache starts stale |
| Transforms.Transform.WorldMatrix | src/transform.cpp:8-14 | when stale, the cache becomes compose(position, rotation, scale) and the flag is cleared; otherwise the cache is returned unchanged |
| Transforms.Transform.PreUpdate | src/transform.cpp:37-39 | sets the dirty flag and changes nothing else |
| Transforms.Transform.SetPosition | src/transform.h:30 | assigns the position only |
| Transforms.Transform.SetRotation | src/transform.h:32 | assigns the rotation only |
| Transforms.Transform.SetScale | src/transform.h:34 | assigns the scale only |
| Transforms.RefreshThenRead | src/transform.cpp:8-14 | after `preUpdate`, `worldMatrix` is the composition of the fields, and a second call returns the same matrix |
| Ecs.Component.PreUpdate | src/component.h:20 | a transform component marks its cache stale; other components do nothing |
| Ecs.Entity.SetComponent | src/entity.h:29-35 | a fresh component with its back-pointer set to this entity replaces any component of that type; returns this |
| Ecs.Entity.GetComponentByTypeId | src/entity.h:42-49 | the stored component, or null exactly when the type is absent |
| Ecs.Entity.ClearComponent | src/entity.h:51-54 | removes only that type; clearing an absent type changes nothing |
| Ecs.SetThenGet | src/entity.h:29-49 | after setting, the component is found under its type and every other type is unchanged |
| Ecs.Entities.Create | src/entities.cpp:9-14 | the new entity is stored under the key equal to the previous count; previous entities are unchanged and keys stay 0..n-1 |
| Ecs.CollectLength | src/components.cpp:11-15 | each entity contributes at most one component to a bucket |
| Ecs.CollectMembers | src/components.cpp:11-15 | a component is in the bucket of t exactly when some entity holds it under t |
| Ecs.CollectEmpty | src/components.cpp:11-15 | a bucket is empty exactly when no entity has a component of that type |
| Ecs.AddOne | src/components.cpp:15 | filing one more component appends it to the end of its type's bucket |
| Ecs.FiledIsCollect | src/components.cpp:11-15 | the bucket of each type, filed entity by entity, is the per-type list in entity order |
| Ecs.FiledKeys | src/components.cpp:11-15 | a type has a bucket exactly when some entity has a component of that type |
| Ecs.CoveredAreDirty | src/components.cpp:14 | each component's transform is left stale |
| Ecs.Components.File | src/components.cpp:14-15 | runs `preUpdate` and appends the component to its type's bucket |
| Ecs.Components.FileComponents | src/components.cpp:12-16 | one entity's components are all filed, whatever order the map yields them in |
| Ecs.Components.FileAll | src/components.cpp:11-17 | the entity loop files every entity's components in entity order |
| Ecs.Components.Extract | src/components.cpp:9-18 | the old buckets are discarded; each bucket then holds exactly the components of its type in entity order; no bucket is empty; every transform is stale and none was moved |
| Ecs.Components.OfType | src/components.h:12-17 | a copy of the bucket, empty when there is none, in which case an empty bucket is inserted |
| Objects.IsAIffOnChain | src/object.h:10-16 | `IsA(t)` holds exactly when t is on the class's parent chain up to Object |
| Objects.IsAOwnType | src/object.h:11 | every class is its own type |
| Objects.RootIsOnlyItself | src/object.h:13 | Object is only an Object |
| Objects.EveryClassIsObject | src/object.h:10-16 | every class is an Object |
| Objects.IsAInherited | src/object.h:14 | a class is every type its parent is |
| Objects.IsATransitive | src/object.h:10-16 | `IsA` is transitive |
| Objects.DynamicCast | src/object.h:22 | the object itself exactly when it is non-null and `IsA` the target, null otherwise |
| Objects.CastToObjectOrOwnClass | src/object.h:22 | casting a non-null object to Object or to its own class succeeds |
| Objects.TypeCounter.constructor | src/object.h:35 | the counter starts at zero with no class defined |
| Objects.TypeCounter.Define | src/object.h:20 | the class gets the counter's value and the counter moves on by one, so ids are distinct and increase in definition order |
| Shading.TexelCoordinate | src/phong_material.cpp:17-18 | `(int)(t*n) % n` lies in (-n, n), and in [0, n) for t >= 0 |
| Shading.TexelColor | src/phong_material.cpp:20-25 | each channel is byte/255 in [0,1] and alpha is 1 |
| Shading.Shade | src/phong_material.cpp:13-33 | green when normal.z > 0.5; otherwise the ambient colour without a texture, and an opaque colour in [0,1] with one |
| Shading.NonNegativeUvReadable | src/phong_material.cpp:17-19 | for u, v >= 0 the texel column and row lie in the texture and the offset ty*width*bpp + tx*bpp is that texel's first byte, in range |
| Shading.ShadeSamplesTexel | src/phong_material.cpp:16-25 | with a texture and u, v >= 0 the colour is the texel at trunc(u*width) mod width, trunc(v*height) mod height |
| Shading.ShadeIgnoresLights | src/phong_material.cpp:13-33 | the light list has no influence on the result |
| Shading.TextureReplacesAmbient | src/phong_material.cpp:14-25 | with a texture the ambient colour is replaced, not blended |
| Shading.ShadeInUnitRange | src/phong_material.cpp:14-32 | an ambient colour in [0,1] gives a result in [0,1] |
| Shading.NegativeUvColumn | src/phong_material.cpp:17 | as written, u = -0.25 on a texture 4 wide gives column -1 |
| Shading.NegativeUvReadsWrongTexel | src/phong_material.cpp:17-19 | as written, (-0.25, 0.5) on a 4x4 RGB texture reads offset 21 instead of the wrapped texel's 33, and (-0.25, 0) reads offset -3 |
| Shading.WrappedTexelCoordinate | src/phong_material.cpp:17-18 | the intended wrap: the truncated product reduced into [0, n) |
| Shading.WrappedTexelIndex | src/phong_material.cpp:17-19 | the wrapped texel's offset is always in range |
| Shading.ShadeWrapped | src/phong_material.cpp:13-33 | `Shade` with the wrapped texel, defined for every texture coordinate, with the same override and range guarantees |
| Shading.ShadeWrappedAgrees | src/phong_material.cpp:13-33 | for u, v >= 0 the wrapped shading equals the shading as written |
| ObjText.Word | src/obj_loader.cpp:33-35 | the extracted word is a prefix without whitespace, ended by whitespace or the end of the line |
| ObjText.TokensAreWords | src/obj_loader.cpp:33-35 | every extracted word is non-empty and has no whitespace |
| ObjText.TokensOfUnwords | src/obj_loader.cpp:55 | extraction gives back the words a line was written from |
| ObjText.Pieces | src/obj_loader.cpp:58-62 | a word splits on '/' into at least one piece |
| ObjText.PiecesOfCorner | src/obj_loader.cpp:58-62 | `p/t/n` splits back into p, t and n |
| ObjText.Stoi | src/obj_loader.cpp:63 | `stoi` yields a value within the 32-bit `int` range, or one of its two exceptions |
| ObjText.StoiOfDecimal | src/obj_loader.cpp:63 | `stoi` reads back every `int` written in decimal, with or without a minus sign, whatever non-digit follows; a larger number is out of range |
| ObjText.StoiNoDigits | src/obj_loader.cpp:63 | without a digit after the optional sign, `stoi` throws invalid_argument |
| ObjText.DigitPrefixIsDigits | src/obj_loader.cpp:63 | the digits `stoi` reads are a run of digits starting the text and not followed by another digit |
| ObjLoader.ReadCorner | src/obj_loader.cpp:58-63 | one corner: the three pieces through `stoi` less one, the first failure winning |
| ObjLoader.ReadFace | src/obj_loader.cpp:54-65 | the loop over the three corner words computes the face, or the first corner's exception |
| ObjLoader.FirstFailingCorner | src/obj_loader.cpp:57-64 | a face fails with the exception of its first failing corner |
| ObjLoader.Expand | src/obj_loader.cpp:69-83 | the vertex loop computes three vertices per face, in face order |
| ObjLoader.Load | src/obj_loader.cpp:9-85 | the line loop and vertex loop compute the vertex buffer, or the first exception; each coordinate is read from where the previous read stopped |
| ObjLoader.CommandThenRest | src/obj_loader.cpp:33-35 | `iss >> command` reads the first word of the line, and the words left in the stream are the line's remaining words |
| ObjLoader.ReadsWhereThePreviousStopped | src/obj_loader.cpp:38-40 | numbers need no whitespace between them: with a reader of integral numerals, `v 1-2 3` is the vertex (1, -2, 3) |
| ObjLoader.FailureSticks | src/obj_loader.cpp:27-31 | an exception ends loading: later lines do not matter |
| ObjLoader.ExpandLayout | src/obj_loader.cpp:70-83 | three vertices per face, face after face and corner after corner; each takes position (w = 1), uv and normal from the indexed lists and has colour (1,1,1,1) |
| ObjLoader.ParseSucceeds | src/obj_loader.cpp:27-67 | parsing succeeds exactly when no line is empty or a face with a bad index |
| ObjLoader.ParseLineOk | src/obj_loader.cpp:29-66 | one line fails exactly when it is empty or a bad face, with that error |
| ObjLoader.ParseFailsAt | src/obj_loader.cpp:27-67 | the exception is that of the first failing line |
| ObjLoader.SkippedLine | src/obj_loader.cpp:29-37 | a comment line or another command leaves the lists unchanged |
| ObjLoader.ParsedLists | src/obj_loader.cpp:37-65 | each list holds the values of its command's lines in file order, and each face is the face of its `f` line |
| ObjLoader.ParsedPoints | src/obj_loader.cpp:37-50 | the vertex, texture-coordinate and normal lists hold the points of their lines, in file order |
| ObjLoader.ParsedFaces | src/obj_loader.cpp:52-66 | the faces are those of the `f` lines, one each, in file order |
| ObjLoader.ParseLineFaces | src/obj_loader.cpp:52-66 | a line that parses adds a face exactly when it is an `f` line, and then the face of that line |
| ObjLoader.LoadedShape | src/obj_loader.cpp:9-85 | `load` throws exactly when some line fails, and otherwise returns three vertices per `f` line |
| ObjLoader.IndexOfDecimal | src/obj_loader.cpp:63 | a 1-based index written in decimal reads back 0-based |
| ObjLoader.CornerRoundTrip | src/obj_loader.cpp:57-64 | reading a written `p/t/n` corner gives back its indices |
| ObjLoader.FaceRoundTrip | src/obj_loader.cpp:52-66 | reading a written `f` line gives back its face |
| ObjLoader.PositionOnlyCornerFails | src/obj_loader.cpp:60-63 | a position-only corner, as in `f 1 2 3`, throws invalid_argument |
| ObjLoader.NoUvCornerFails | src/obj_loader.cpp:60-63 | a corner without a texture index, as in `f 1//1 2//2 3//3`, throws invalid_argument |

## Left out

- Windowing, OpenGL, GLFW and the keyboard callback are host I/O, so they are not modelled. Nor is the rest of `main`: shader setup, texture upload, and swap and poll.
- PNG loading is file I/O, so texture loading is not modelled. A texture is a record of width, height, bytes per pixel and bytes.
- Reading the OBJ file is file I/O. The loader takes the file's lines.
- Float rounding, NaN and infinity are not modelled; all arithmetic is on reals.
  - Where the source divides unconditionally, the model asks for a non-zero divisor: `Vectors.Div`, `Matrices.TransformPoint`, `Matrices.Matrix44.TimesPoint`, `Matrices.PerspectiveMat` and `Matrices.Matrix44.MakePerspective` (the aspect ratio and zNear - zFar), `CanvasRaster.Project`.
  - Text-to-float conversion is the parameter `readFloat`. It reads a number at the start of the text and returns its value and the text after it, so each coordinate is read where the previous read stopped. Stream failure states, such as a missing number, are not modelled.
- The width of `int` and its overflow are not modelled anywhere except in `stoi`; all integers are unbounded. This covers the `(int)` casts of `MainRenderer.DrawLineBetween`, undefined in C++ for a value outside `int` (src/main.cpp:169-172), the `2 * err` of the line loop (src/main.cpp:183), and the buffer sizes `width * height * bytesPerPixel` and `width * height` (src/main.cpp:150-152).
- Trigonometry is not modelled. `tan` is a parameter of `getFrustum`, and `makePerspective` takes f = 1/tan(fov/2) as a number. Quaternion `fromEulerAngles` and `normalize` are not modelled either.
- `getProjectionMatrix` depends on the engine singleton, so it is not modelled.
- The plane and triangle classes of the math library are not part of this model, because their source is not available:
  - The frustum keeps each plane as the three points it is built from.
  - The triangle-against-plane test is a parameter.
  - The Canvas uses the barycentric test of `src/main.cpp`. The library's triangle class is assumed to use the same formula.
- `CanvasRaster.Project` and `CanvasRaster.MulVec4`: the math library's product of a `Matrix44` and a `Vector4` is not part of this model. It is assumed to be the column-major product `MulVec4`, the layout of `Matrix44::operator*(Vector3)`.
- The camera pose (world position and axes) comes from a matrix decomposition that is not part of this model, so it is passed in.
  - For the same reason the world-direction getters of `Transform` are not modelled.
- `Vertexbuffer` is not modelled. Its vertex count is computed from a decayed pointer; the loader's result is the vertex sequence.
- `Entities` and `Components` are static registries in the source and explicit objects here. `extract` visits entities in key order, a fixed order, because `unordered_map` guarantees none.
- `Ecs.Components.Extract` does not prove "`preUpdate` runs exactly once per component" as a count. It proves that every component is filed exactly once and that every transform ends stale. Running a transform's `preUpdate` more than once would have the same effect.
- `Ecs.Components.Extract` does not state the total size of all buckets as one sum. It states each bucket exactly, so the total follows but is not written out.
- `Ecs.Components.Extract` names the transforms it may change through a ghost set. The caller must supply one covering every transform component.
- `Ecs.Component`: components form one class with a type id and an optional transform. The source uses subclasses. Only the `Transform` subclass overrides `preUpdate`.
- `Cameras.GetViewMatrix` requires that the camera's entity has a transform component. The source dereferences the lookup unchecked (a null dereference otherwise).
- `Cameras.GetViewMatrix` reads the transform through `worldMatrix`, the cached matrix.
- `Transforms.Transform.constructor`: the dirty flag starts set. The header snapshot in the repository has no dirty flag.
  - This is the initial value under which the first `worldMatrix` call composes.
- `Vertices.Vertex` carries a normal. The loader and `Shade` use one, although the snapshot of `src/vertex.h` lacks it.
- `MainRenderer.DrawTriangle` requires every vertex w to be positive and every texture coordinate to be in [0, 1]. Without them the source's texel read may leave the image. The contract states only the frame condition, not which pixels are drawn.
- `CanvasRaster.Canvas.DrawTriangle` requires that both buffers exist with the sizes the code indexes, since the constructor never allocates them.
- `CanvasRaster.Canvas.DrawTriangle`: the contract states the frame condition, not which pixels are drawn.
- `CanvasRaster.Canvas.DrawPixel` requires the colour to fit a byte on screen, since the conversion of an out-of-range channel is undefined.
- `Shading.Shade` requires the texel read to be in range, because the source reads unchecked. The wrapped form below has no such requirement.
- `ObjLoader.Load` requires every face index of a file that parses to lie within its list, since the lookups are unchecked.
- `ObjLoader.Load` models indices as unbounded integers. The `stoi(p) - 1` of `INT_MIN` would overflow; this is not modelled.
- `ObjLoader.Load` reads OBJ faces only as `p/t/n`. The source rejects `f 1 2 3` and `f 1//1 2//2 3//3`, as `PositionOnlyCornerFails` and `NoUvCornerFails` show. The model follows the source.
- Color constants and the vector constants are declared as constants only.

## Findings

| source | as written | input that shows it | evidently intended | confidence | as-written member | corrected member |
|---|---|---|---|---|---|---|
| src/phong_material.cpp:17-19 | `tx = (int)(u * width) % width` uses C++'s remainder, which is negative for a negative coordinate, so the offset idx points to the wrong texel or before the buffer | u = -0.25, v = 0.5 on a 4x4 RGB texture: tx = -1 and idx = 21 (the last texel of row 1) instead of the wrapped texel (3, 2) at 33; with v = 0, idx = -3 | wrap the coordinate into [0, width), as for u >= 0 | not executed | Shading.NegativeUvReadsWrongTexel | Shading.ShadeWrapped |
